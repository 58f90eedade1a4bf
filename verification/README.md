# SME accounts dashboard — a verified model of its data logic

The project behind this model is a social-media analytics dashboard for
the accounts of a record label. It has two parts.

- **Preprocessing scripts** read the TikTok and Instagram post sheets. They
  find the artist each post is about and compute each post's interaction
  rate (IR). They then write three documents:
  - per month, the aggregates of that month's posts and the posts
    themselves;
  - per artist, the statistics on each platform.
- **The dashboard** (`Home.tsx`) derives what it shows from those
  documents:
  - the summary cards;
  - the monthly line chart and the stacked impact chart;
  - the distribution ("violin") histogram;
  - the filtered and sorted post tables;
  - the top-30 artist ranking;
  - the monthly CSV download;
  - the sort headers and the year selector.

The model states all of this in Dafny and proves its properties. Counters
are `int`; rates, means, medians and thresholds are `real` (3.16 is 316/100).
Strings are sequences of characters.

The modules:

| module | file | models |
|---|---|---|
| `Text` | text.dfy | the ASCII character classes, lower-casing, substring search, stripping, word splitting, `@` captures and whole-word search the scripts and the dashboard use |
| `Records` | records.dfy | `Video`, `MonthData`, the month document, the per-artist statistics |
| `Stats` | stats.dfy | sums and means, sorting numbers, the two median rules |
| `Lists` | lists.dfy | filtering a sequence |
| `Sorting` | sorting.dfy | an in-place sort of an array under a total preorder (the comparators of `Array.prototype.sort`) |
| `MonthGrouping` | grouping.dfy | grouping posts or rows by their `YYYY-MM` key |
| `Tally` | tally.dfy | the "find a slot, increment its counter" loops |
| `Impact` | impact.dfy | the five-level impact classifier and its band tables |
| `Evolution` | evolution.dfy | `totalMetrics`, `chartData`, `impactStackedData` |
| `Violin` | violin.dfy | `violinValues` |
| `VideoTable` | table.dfy | `allVideos`, `monthVideos`, `artistVideos` |
| `ArtistRanking` | ranking.dfy | `artistData` |
| `CsvExport` | csv.dfy | `downloadCSV` |
| `Controls` | controls.dfy | `handleSort`, `handleArtistSort`, `availableYears` |
| `ArtistNames` | names.dfy | the manual mapping, `normalize_artist_name`, `extract_usernames` |
| `ArtistMatcher` | matcher.dfy | `find_best_artist_match` |
| `ProcessingV2` | process_v2.dfy | the second script: the classification and normalisation passes, the month buckets, `generate_artist_stats` |
| `ProcessingV1` | process_v1.dfy | the first script: `load_artists`, `normalize_text`, `find_artist`, `calculate_ir`, `process_tiktok`, `process_instagram` |

Where the source loops and updates state, the model does too. It uses
methods with loops, and methods over arrays where the source sorts in place
or rewrites a table column. Each such method is proved equal to a
specification function, and the source's promises are proved about those
functions.

## Model

| member | source | states |
|---|---|---|
| `Text.ToLower` | process_data.py:41 | lower-casing keeps the length and lowers each character on its own |
| `Text.ToLowerIdempotent` | process_data_v2.py:271 | lower-casing twice is lower-casing once |
| `Text.ContainsIff` | process_data.py:67 | `needle in hay` holds exactly when the needle occurs at some position of the text |
| `Text.MissingCharNotContained` | process_data_v2.py:279 | a needle holding a character the text lacks does not occur in it |
| `Text.NoPairFrom` | process_data_v2.py:279 | a text in which no `a` is followed by `b` holds the pair `a`, `b` nowhere |
| `Text.OccurrenceHolds` | process_data_v2.py:279 | an occurrence of a needle puts each of its characters in the text, at the matching position |
| `Text.MissingPairNotContained` | process_data_v2.py:279 | a needle holding two adjacent characters that are never adjacent in the text does not occur in it |
| `Text.Prefix` | process_data.py:208 | `s[:n]` has at most `n` characters, starts `s`, and is `s` itself when `s` is short enough |
| `Text.TrimStart` | process_data.py:19 | stripping the front removes exactly the leading run of dropped characters |
| `Text.TrimEnd` | process_data.py:19 | stripping the back removes exactly the trailing run of dropped characters |
| `Text.Strip` | process_data.py:19-22 | the stripped text is no longer and neither starts nor ends with a dropped character |
| `Text.StripEmptyIff` | process_data.py:20-23 | stripping leaves nothing exactly when every character is dropped |
| `Text.StripKeeps` | process_data.py:22 | a text that neither starts nor ends with a dropped character is left unchanged |
| `Text.SplitWords` | process_data.py:74 | `split()` yields non-empty words without whitespace |
| `Text.AtCaptures` | process_data.py:46 | every `@` capture is non-empty and made of allowed characters |
| `Text.AtCapturesOccur` | process_data.py:46 | every capture stands in the text right after an `@` |
| `Text.StrLeTotal` | client/src/pages/Home.tsx:225 | the lexicographic order on month keys compares any two keys |
| `Text.StrLeTransitive` | client/src/pages/Home.tsx:225 | the lexicographic order is transitive |
| `Text.StrLeAntisymmetric` | client/src/pages/Home.tsx:624 | two keys ordered both ways are equal |
| `Records.MonthKey` | process_data.py:117-118 | the month key of a `YYYY-MM-DD` date is its 7-character prefix |
| `Records.FlattenMembers` | client/src/pages/Home.tsx:189-191 | a post is among all posts exactly when it is in some month's post list |
| `Records.Lookup` | client/src/pages/Home.tsx:184 | `data[key]` is the month stored under the key, or absent when no entry has that key |
| `Stats.Mean` | client/src/pages/Home.tsx:207-212 | the mean is 0 for no values and otherwise the sum divided by the count |
| `Stats.SumIntZeros` | process_data.py:159 | a sum of zeros is zero |
| `Stats.SumBounds` | client/src/pages/Home.tsx:207-212 | values between two bounds have a sum between count × bound |
| `Stats.MeanBetween` | client/src/pages/Home.tsx:207-212 | the mean of values between two bounds lies between them |
| `Stats.MeanNonNegative` | process_data_v2.py:167 | the mean of non-negative values is non-negative |
| `Stats.SumAppend` | client/src/pages/Home.tsx:189-191 | the sum of two concatenated lists is the sum of their sums |
| `Stats.SortedCopy` | client/src/pages/Home.tsx:384 | the ascending sort of numbers is ascending and a permutation |
| `Stats.InsertAscending` | client/src/pages/Home.tsx:384 | inserting a number into an ascending series keeps it ascending |
| `Stats.AscendingPermutationUnique` | client/src/pages/Home.tsx:384 | two ascending arrangements of the same numbers are equal, so the median does not depend on the sort algorithm |
| `Stats.SortNumbers` | client/src/pages/Home.tsx:549 | `.sort((a, b) => a - b)` yields the ascending sort |
| `Stats.UpperMedian` | client/src/pages/Home.tsx:384-385 | the upper-middle median is 0 for no values and otherwise one of the values |
| `Stats.UpperMedianOfAscending` | process_data_v2.py:164 | on an ascending list the upper median is element `n / 2` |
| `Stats.MediansIgnoreOrder` | client/src/pages/Home.tsx:549-551 | both median rules depend only on the values, not on their order |
| `Stats.TrueMedianVersusUpper` | client/src/pages/Home.tsx:551 | the true median equals the upper median for an odd count and lies between the two middle elements otherwise |
| `Stats.MiddlesOfAscending` | client/src/pages/Home.tsx:551 | in an ascending series the middle mean lies between the lower and the upper middle element, and is the middle element for an odd length |
| `Stats.MedianRulesDiffer` | client/src/pages/Home.tsx:231 | on `[2, 1]` the upper median is 2 and the true median is 1.5 |
| `Lists.Filter` | client/src/pages/Home.tsx:457-460 | the kept elements are exactly the elements that pass, and no more than the input |
| `Lists.FilterAppend` | client/src/pages/Home.tsx:450-452 | filtering distributes over concatenation |
| `Lists.FilterKeepsAll` | client/src/pages/Home.tsx:455 | a filter every element passes keeps the list unchanged |
| `Sorting.SortInPlace` | client/src/pages/Home.tsx:464-471 | the in-place sort leaves the array ordered by the comparator and a permutation of its old contents |
| `Sorting.InsertLast` | client/src/pages/Home.tsx:464-471 | one insertion step extends the sorted prefix by one element and permutes the array |
| `Sorting.SortedCopyOf` | client/src/pages/Home.tsx:490-497 | sorting a copy yields an ordered permutation of the same length |
| `MonthGrouping.MonthOfDate` | process_data_v2.py:138 | the month key starts the date and is the `YYYY-MM` of an ISO date |
| `MonthGrouping.KeysOf` | process_data_v2.py:295 | the distinct keys are exactly the keys of some element |
| `MonthGrouping.Grouped` | process_data_v2.py:141 | one group per key that occurs, each holding that key's elements in input order |
| `MonthGrouping.GroupsPartition` | process_data.py:142-143 | every group is non-empty and holds only its key, and every element is in its key's group |
| `MonthGrouping.GroupedSnoc` | process_data.py:219 | one more element lands at the end of its own group and leaves the other groups alone |
| `MonthGrouping.GroupBy` | process_data_v2.py:141 | the grouping loop builds exactly the groups |
| `MonthGrouping.GroupsOfSnoc` | process_data.py:142-143 | appending a record to the list of its key keeps every group exactly the records of its key, in input order |
| `MonthGrouping.GroupedSnocKeys` | process_data.py:142-143 | one more record adds its own key to the groups and no other |
| `Tally.CountsStep` | client/src/pages/Home.tsx:394 | counting one more value increments only that value's slot |
| `Tally.SumIntBump` | client/src/pages/Home.tsx:394 | an increment in range adds one to the total; out of range it adds nothing |
| `Tally.CountsTotal` | client/src/pages/Home.tsx:390-395 | the counters add up to the number of values whose slot exists |
| `Tally.CountSlots` | client/src/pages/Home.tsx:392-395 | the counting loop fills exactly the counters of the values' slots |
| `Impact.FamilyValues` | client/src/pages/Home.tsx:311-325 | each post contributes its IR, views or likes according to the metric |
| `Impact.FindBand` | client/src/pages/Home.tsx:265 | `find` returns the first band whose `[min, max)` holds the value, or none |
| `Impact.Classify` | client/src/pages/Home.tsx:311-345 | a non-negative value's category is the one whose band holds it; a negative value is "Muy Bajo" |
| `Impact.BandsPartition` | client/src/pages/Home.tsx:256-295 | every non-negative value lies in exactly one band, which is the ladder's category |
| `Impact.NegativeInNoBand` | client/src/pages/Home.tsx:264-266 | a negative value lies in no band and is not counted |
| `Impact.ClassifyMonotone` | client/src/pages/Home.tsx:326-344 | a larger value never gets a lower category |
| `Impact.ClassifyAtThreshold` | client/src/pages/Home.tsx:326-331 | lower bounds are inclusive: IR 3.16 is "Bajo", 3.159999 is "Muy Bajo" |
| `Impact.IrCapKeepsCategory` | client/src/pages/Home.tsx:367 | capping IR at 25 does not change its category |
| `Impact.BandSlots` | client/src/pages/Home.tsx:264-266 | one band index per value |
| `Impact.BandCountIsCategoryCount` | client/src/pages/Home.tsx:975-1006 | a band's count is the number of values of its category |
| `Impact.SlotIsRank` | client/src/pages/Home.tsx:264-266 | the band `find` gives a value is the rank of a category exactly when the value is non-negative and the ladder gives that category; a value finds some band exactly when it is non-negative |
| `Impact.BandedAreNonNegative` | client/src/pages/Home.tsx:264-266 | the values that find a band are exactly the non-negative ones |
| `Impact.StackedCounts` | client/src/pages/Home.tsx:256-306 | the five counts are the category counts and sum to the number of non-negative values |
| `Impact.CountCategories` | client/src/pages/Home.tsx:264-266 | the counting loop produces those five counts |
| `Evolution.SelectedVideosMembers` | client/src/pages/Home.tsx:181-192 | the posts are those of the selected month when it exists, otherwise those of every month |
| `Evolution.SelectVideos` | client/src/pages/Home.tsx:182-192 | the collecting loop yields exactly those posts |
| `Evolution.TotalsOf` | client/src/pages/Home.tsx:194-218 | all fields are 0 without posts; otherwise the count, the means and the field sums |
| `Evolution.TotalMetrics` | client/src/pages/Home.tsx:181-219 | the summary cards are the totals of the selected posts |
| `Evolution.TotalsBetween` | client/src/pages/Home.tsx:207-212 | the mean IR lies between the smallest and largest IR |
| `Evolution.SumIntNonNegative` | client/src/pages/Home.tsx:215-217 | a sum of non-negative counters is non-negative |
| `Evolution.TotalsNonNegative` | client/src/pages/Home.tsx:194-218 | non-negative posts give non-negative totals |
| `Evolution.MaxOrZero` | client/src/pages/Home.tsx:232-237 | the maximum is at least 0 and at least every value |
| `Evolution.EntriesInYear` | client/src/pages/Home.tsx:224 | the kept months are exactly those of the selected year, or all |
| `Evolution.Points` | client/src/pages/Home.tsx:226-240 | one chart point per month entry |
| `Evolution.PointOrderIsPreorder` | client/src/pages/Home.tsx:225 | ordering by month key is a total preorder |
| `Evolution.ChartData` | client/src/pages/Home.tsx:222-241 | the chart holds the selected year's month points, ascending by month |
| `Evolution.MonthPoint` | client/src/pages/Home.tsx:226-238 | a month's point carries its key, its post count and its metric, the IR median being the upper median of its posts' IRs |
| `Evolution.BuildPoints` | client/src/pages/Home.tsx:225-239 | the map over the months gives one point per month, in order |
| `Evolution.PointKeysAreEntryKeys` | client/src/pages/Home.tsx:226-239 | a month has a point exactly when it has an entry |
| `Evolution.YearEntryKeys` | client/src/pages/Home.tsx:224 | the year filter keeps exactly the months of the year |
| `Evolution.ChartMonths` | client/src/pages/Home.tsx:222-241 | a month appears on the chart exactly when it is in the data and in the selected year |
| `Evolution.StackedRows` | client/src/pages/Home.tsx:248-305 | one stacked row per month entry |
| `Evolution.RowOrderIsPreorder` | client/src/pages/Home.tsx:247 | ordering rows by month is a total preorder |
| `Evolution.ImpactStacked` | client/src/pages/Home.tsx:244-306 | the stacked rows of the selected year, ascending by month |
| `Evolution.MonthRow` | client/src/pages/Home.tsx:248-304 | a month's row holds the five category counters of its posts, highest category first |
| `Evolution.BuildRows` | client/src/pages/Home.tsx:247-305 | the map over the months gives one row per month, in order |
| `Evolution.StackedRowTotal` | client/src/pages/Home.tsx:298-304 | a month's five counts add up to its posts whose metric is non-negative |
| `Violin.ViolinValues` | client/src/pages/Home.tsx:366-381 | one value per post: IR capped at 25, or views, or likes |
| `Violin.MaxWith` | client/src/pages/Home.tsx:373 | `Math.max(...values, 1)` is at least 1 and every value, and is 1 or a value |
| `Violin.MaxValue` | client/src/pages/Home.tsx:366-379 | the axis maximum is 25 for IR, otherwise the largest value or 1; never below 1 |
| `Violin.NumBins` | client/src/pages/Home.tsx:389 | 26 bins exactly for `avg_ir`, 50 otherwise (including `median_ir`) |
| `Violin.BinIndex` | client/src/pages/Home.tsx:393 | the bin index is at most `numBins - 1`, non-negative exactly for non-negative values, and not above the scaled value |
| `Violin.NegativeTimesPositive` | client/src/pages/Home.tsx:393 | a negative value scaled by a positive factor stays negative |
| `Violin.BinSlots` | client/src/pages/Home.tsx:392-394 | one bin index per value |
| `Violin.Summarize` | client/src/pages/Home.tsx:383-395 | upper median, mean, axis maximum, bin count and bin counters of the values |
| `Violin.ViolinValuesOf` | client/src/pages/Home.tsx:347-437 | the histogram of the selected posts' values |
| `Violin.BinsTotal` | client/src/pages/Home.tsx:390-395 | the bins add up to the number of non-negative values |
| `Violin.InRangeIsNonNegative` | client/src/pages/Home.tsx:393 | a value has a bin exactly when it is non-negative |
| `Violin.ViolinBinsCountEveryPost` | client/src/pages/Home.tsx:390-395 | with non-negative counters every post lands in a bin |
| `Violin.AllNonNegative` | client/src/pages/Home.tsx:392 | non-negative values are all counted |
| `Violin.ValuesOnAxis` | client/src/pages/Home.tsx:366-393 | a non-negative value lies on `[0, maxValue]` with a bin in `[0, numBins)` |
| `VideoTable.VideoOrderIsPreorder` | client/src/pages/Home.tsx:464-471 | the column comparison in either direction is a total preorder |
| `VideoTable.SortVideos` | client/src/pages/Home.tsx:464-471 | the table sort is an ordered permutation |
| `VideoTable.FlattenFilterSnoc` | client/src/pages/Home.tsx:442-452 | one more month adds its posts when it passes the month filter |
| `VideoTable.CollectTableMonths` | client/src/pages/Home.tsx:441-452 | the collecting loop yields the posts of the months that pass the filter |
| `VideoTable.AllVideos` | client/src/pages/Home.tsx:440-474 | the table is an ordered permutation of the posts of the selected year and month that pass the impact filter |
| `VideoTable.TableSelectionMembers` | client/src/pages/Home.tsx:443-461 | a post is selected exactly when its month passes the year and month tests and its category passes the impact filter |
| `VideoTable.KeptMonthsHold` | client/src/pages/Home.tsx:443-452 | a post is in a kept month exactly when some month passing the year and month tests holds it |
| `VideoTable.KeptMonthInData` | client/src/pages/Home.tsx:443-452 | a post of a kept month is a post of a month passing the tests |
| `VideoTable.DataMonthKept` | client/src/pages/Home.tsx:443-452 | a post of a month passing the tests is a post of a kept month |
| `VideoTable.MonthVideos` | client/src/pages/Home.tsx:477-499 | empty without a month that exists; otherwise an ordered permutation of that month's posts that pass the impact filter |
| `VideoTable.AppendArtistPosts` | client/src/pages/Home.tsx:597-603 | the inner loop appends exactly the month's posts by the artist |
| `VideoTable.CollectArtist` | client/src/pages/Home.tsx:596-604 | the outer loop collects every post by the artist, month by month |
| `VideoTable.ArtistVideos` | client/src/pages/Home.tsx:593-615 | empty without a selected artist; otherwise an ordered permutation of that artist's posts |
| `ArtistRanking.Candidates` | client/src/pages/Home.tsx:512-586 | every row passes the minimum and is not excluded by the filter word; every qualifying artist has its row |
| `ArtistRanking.MiddleMedian` | client/src/pages/Home.tsx:548-552 | the artist median is the true median |
| `ArtistRanking.ComputeMetric` | client/src/pages/Home.tsx:535-576 | the ranking metric is the chosen statistic or median |
| `ArtistRanking.CollectCandidates` | client/src/pages/Home.tsx:512-586 | the loop collects exactly the candidate rows |
| `ArtistRanking.CandidateRow` | client/src/pages/Home.tsx:512-586 | an artist gets a row exactly when it qualifies, and the row is its specified row |
| `ArtistRanking.CandidatesSnoc` | client/src/pages/Home.tsx:512-586 | one more artist adds its row exactly when it qualifies |
| `ArtistRanking.PrefixDominates` | client/src/pages/Home.tsx:588-589 | after a descending sort nothing left out beats a kept row |
| `ArtistRanking.TakeTop` | client/src/pages/Home.tsx:588-589 | at most 30 rows, in non-increasing metric order, a sub-multiset of the candidates, and none left out beats a kept row |
| `ArtistRanking.ArtistData` | client/src/pages/Home.tsx:502-590 | the ranking: at most 30 qualifying, non-excluded rows, largest metric first, and no better candidate left out |
| `CsvExport.CsvRow` | client/src/pages/Home.tsx:635-646 | nine cells per month, the month key first |
| `CsvExport.CsvRows` | client/src/pages/Home.tsx:633-647 | one row per month entry |
| `CsvExport.SplitOn` | client/src/pages/Home.tsx:649 | splitting yields at least one piece |
| `CsvExport.SplitWithoutSeparator` | client/src/pages/Home.tsx:649 | a text without the separator splits into itself |
| `CsvExport.SplitAfterPiece` | client/src/pages/Home.tsx:649 | a piece followed by the separator splits off first |
| `CsvExport.SplitJoin` | client/src/pages/Home.tsx:649 | joining then splitting gives the parts back when no part holds the separator |
| `CsvExport.JoinAvoids` | client/src/pages/Home.tsx:649 | joining introduces no new characters other than the separator |
| `CsvExport.Lines` | client/src/pages/Home.tsx:649 | one line per row, its cells joined by commas |
| `CsvExport.CsvReadsBack` | client/src/pages/Home.tsx:628-649 | the CSV text reads back into exactly the rows when no cell holds a comma or line feed |
| `CsvExport.ByFirstCellIsPreorder` | client/src/pages/Home.tsx:634 | ordering rows by month key is a total preorder |
| `CsvExport.DownloadCsv` | client/src/pages/Home.tsx:628-649 | the header, then one nine-cell row per month ascending by key, joined into the CSV text |
| `Controls.HandleSort` | client/src/pages/Home.tsx:659-666 | the clicked column becomes current; it flips when it already was, and starts descending otherwise |
| `Controls.TwoClicksRestore` | client/src/pages/Home.tsx:660-662 | two clicks on the current column restore the state |
| `Controls.NewColumnThenAscending` | client/src/pages/Home.tsx:668-675 | a new column starts descending and a second click makes it ascending |
| `Controls.YearOf` | client/src/pages/Home.tsx:620-621 | the year is the part of the key before the first dash |
| `Controls.MultiplicityAtMostOne` | client/src/pages/Home.tsx:618-624 | a list without duplicates holds every value at most once |
| `Controls.NoDuplicatesPermutation` | client/src/pages/Home.tsx:624 | sorting a duplicate-free list keeps it duplicate-free |
| `Controls.AvailableYears` | client/src/pages/Home.tsx:618-625 | every year of a month key exactly once, strictly ascending |
| `ArtistNames.ExactFrom` | process_data_v2.py:274-275 | the exact lookup finds the mapped name of a key, or none when it is not a key |
| `ArtistNames.MappingExact` | process_data_v2.py:274-275 | an exact hit happens exactly for a key and yields a mapped name |
| `ArtistNames.FirstKeyFrom` | process_data_v2.py:278-280 | the substring search finds the first key in mapping order that stands in the name, or none |
| `ArtistNames.ContainsItself` | process_data_v2.py:274 | every text contains itself |
| `ArtistNames.NormalizeArtistName` | process_data_v2.py:254-282 | the result is the name itself or one of the mapped names |
| `ArtistNames.NoKeyIn` | process_data_v2.py:278-280 | a text holding none of the eleven keys matches no key |
| `ArtistNames.UnchangedWhenNoKey` | process_data_v2.py:282 | a name holding no key is returned unchanged |
| `ArtistNames.FirstKeyDecides` | process_data_v2.py:278-280 | the first key in mapping order found in a name decides its normalisation |
| `ArtistNames.ExactKeyDecides` | process_data_v2.py:274-275 | a name whose lower-cased form equals a key normalises to that key's name |
| `ArtistNames.FirstContainedKeyDecides` | process_data_v2.py:278-280 | without an exact key, the first key in mapping order inside the lower-cased name decides |
| `ArtistNames.NoKeyUnchanged` | process_data_v2.py:282 | a name whose lower-cased form holds no key is returned unchanged |
| `ArtistNames.KeysDistinct` | process_data_v2.py:257-269 | the mapping keys are pairwise distinct |
| `ArtistNames.DoveCameronFixed` | process_data_v2.py:258 | "Dove Cameron" normalises to itself |
| `ArtistNames.DoveCameronNoKey` | process_data_v2.py:258 | "dove cameron" holds none of the mapping keys |
| `ArtistNames.NathyPelusoFixed` | process_data_v2.py:259 | "Nathy Peluso" normalises to itself |
| `ArtistNames.CarlosRiveraFixed` | process_data_v2.py:260 | "Carlos Rivera" normalises to itself |
| `ArtistNames.CarlosRiveraNoKey` | process_data_v2.py:260 | "carlos rivera" holds none of the mapping keys |
| `ArtistNames.BeeleFixed` | process_data_v2.py:261-262 | "BEÉLE" normalises to itself |
| `ArtistNames.BeeleNoKey` | process_data_v2.py:261-262 | "beÉle" holds none of the mapping keys |
| `ArtistNames.FuerzaRegidaFixed` | process_data_v2.py:263 | "Fuerza Regida" normalises to itself |
| `ArtistNames.FuerzaRegidaNoKey` | process_data_v2.py:263 | "fuerza regida" holds none of the mapping keys |
| `ArtistNames.MiguelBuenoFixed` | process_data_v2.py:264 | "Miguel Bueno" normalises to itself |
| `ArtistNames.MonLaferteFixed` | process_data_v2.py:265 | "Mon Laferte" normalises to itself |
| `ArtistNames.MonLaferteNoKey` | process_data_v2.py:265 | "mon laferte" holds none of the mapping keys |
| `ArtistNames.HaAshFixed` | process_data_v2.py:266 | "Ha*Ash" normalises to itself |
| `ArtistNames.HaAshNoKey` | process_data_v2.py:266 | "ha*ash" holds none of the mapping keys |
| `ArtistNames.JuanLuisFixed` | process_data_v2.py:267 | "Juan Luis" normalises to itself |
| `ArtistNames.JuanLuisNoKey` | process_data_v2.py:267 | "juan luis" holds none of the mapping keys |
| `ArtistNames.NetoBernalFixed` | process_data_v2.py:268 | "Neto Bernal" normalises to itself |
| `ArtistNames.NetoBernalNoKey` | process_data_v2.py:268 | "neto bernal" holds none of the mapping keys |
| `ArtistNames.NoArtistFixed` | process_data_v2.py:296 | "Sin artista" normalises to itself |
| `ArtistNames.NoArtistNoKey` | process_data_v2.py:296 | "sin artista" holds none of the mapping keys |
| `ArtistNames.MappedNameFixed` | process_data_v2.py:257-269 | every mapped name is a fixed point of the normalisation |
| `ArtistNames.NormalizeIdempotent` | process_data_v2.py:135 | normalising twice, as the script does, equals normalising once |
| `ArtistNames.ExtractUsernames` | process_data_v2.py:54-59 | a missing text gives no usernames; every username is non-empty and made of letters, digits, `_` and `.` |
| `ArtistNames.UsernamesOccur` | process_data_v2.py:58 | every username stands in the text right after an `@` |
| `ArtistNames.NoAtNoUsernames` | process_data_v2.py:58 | a text without `@` has no usernames |
| `ArtistMatcher.UsernameHit` | process_data_v2.py:86-93 | a username hits the mapping exactly when some key is inside it, and the hit is a mapped name |
| `ArtistMatcher.HitIsNormalizedName` | process_data_v2.py:86-93 | the hit of a username is its normalised name, and without a hit the normalisation leaves it alone |
| `ArtistMatcher.ManualHit` | process_data_v2.py:85-93 | the hit is that of the first username that hits the mapping, or none when none does |
| `ArtistMatcher.FirstHit` | process_data_v2.py:85-93 | the first hit of a list: the hit of the earliest element that hits, none exactly when no element hits |
| `ArtistMatcher.Row` | process_data_v2.py:99 | one (username, artist) pair per artist, in list order |
| `ArtistMatcher.Pairs` | process_data_v2.py:98-99 | the pairs are every username with every artist |
| `ArtistMatcher.Scan` | process_data_v2.py:98-103 | the best pair: none with similarity 0 when no pair reaches the threshold; otherwise the first pair of maximal similarity |
| `ArtistMatcher.BestArtistMatch` | process_data_v2.py:61-105 | `(None, 0)` without usernames; a manual hit with similarity 1; otherwise a listed artist of maximal similarity at or above the threshold, attained by a username and artist pair before which, in loop order, every pair scores less; or none when no pair reaches it |
| `ArtistMatcher.FallbackFacts` | process_data_v2.py:95-105 | the fallback answer is a listed artist whose similarity bounds every qualifying pair and is attained by the first pair, in loop order, that reaches it |
| `ArtistMatcher.ScanWinnerIsFirstBest` | process_data_v2.py:98-103 | the scan's winner is the pair of some username and artist, and every pair the nested loops visit before it scores less |
| `ArtistMatcher.PairsLength` | process_data_v2.py:98-99 | the nested loops visit one pair per username and artist |
| `ArtistMatcher.PairsAt` | process_data_v2.py:98-99 | username `i` and artist `j` are visited after `i` full rows of artists and `j` more pairs |
| `ArtistMatcher.PairsPosition` | process_data_v2.py:98-99 | every visited position is the pair of some username `i` and artist `j` |
| `ArtistMatcher.EarlierPairScoresLess` | process_data_v2.py:98-103 | a pair visited before a position scores below every bound the earlier positions respect |
| `ArtistMatcher.ScanSnoc` | process_data_v2.py:101-103 | the scan of one more pair is one more update step |
| `ArtistMatcher.ScanArtists` | process_data_v2.py:99-103 | the inner loop continues the scan over one username's row |
| `ArtistMatcher.LookUpUsername` | process_data_v2.py:86-93 | the mapping lookup loop finds the hit of a username |
| `ArtistMatcher.FindBestArtistMatch` | process_data_v2.py:61-105 | the matcher's loops compute the specified best match |
| `ArtistMatcher.FindManualHit` | process_data_v2.py:85-93 | the username loop returns the first mapping hit |
| `ArtistMatcher.ScanUsernames` | process_data_v2.py:95-103 | the nested fuzzy loops return the specified best pair and its similarity |
| `ProcessingV2.LabelOfMentions` | process_data_v2.py:119-127 | the label is "Sin artista", a mapped name or a listed artist, and "Sin artista" without usernames |
| `ProcessingV2.Relabelled` | process_data_v2.py:117-127 | each row keeps everything except its artist column, which is relabelled |
| `ProcessingV2.RelabelColumn` | process_data_v2.py:117-127 | the column loop rewrites every row's artist in place |
| `ProcessingV2.ClassifyRows` | process_data_v2.py:117-127 | classification relabels every row with the artist of its usernames |
| `ProcessingV2.NormalizeColumn` | process_data_v2.py:135 | the normalisation pass relabels every row with its normalised artist |
| `ProcessingV2.NormalizedRowsStable` | process_data_v2.py:135 | normalising the column twice, as at line 289, changes nothing more |
| `ProcessingV2.IrV2` | process_data_v2.py:132 | IR is (likes + comments) / views × 100, 0 without views, and non-negative for non-negative counters |
| `ProcessingV2.VideoOfRow` | process_data_v2.py:144-155 | the post copies the row's date, artist and counters, cuts the description to 200 characters, and carries the row's IR |
| `ProcessingV2.VideosOfRows` | process_data_v2.py:143-155 | one post per row, in row order |
| `ProcessingV2.BuildVideos` | process_data_v2.py:142-155 | the row loop builds exactly those posts |
| `ProcessingV2.AvgIrNonNegative` | process_data_v2.py:167 | a month of viewed posts with non-negative counters has a non-negative mean IR |
| `ProcessingV2.BucketV2` | process_data_v2.py:162-172 | the bucket counts the group's rows and lists their posts |
| `ProcessingV2.BucketsOf` | process_data_v2.py:141-172 | one bucket per group |
| `ProcessingV2.BuildBucket` | process_data_v2.py:142-172 | the bucket of a group |
| `ProcessingV2.BuildBuckets` | process_data_v2.py:141-172 | the month loop builds one bucket per group |
| `ProcessingV2.BuildMonthsV2` | process_data_v2.py:138-172 | the month document of a sheet |
| `ProcessingV2.MonthsV2Partition` | process_data_v2.py:138-172 | a bucket for exactly the months that occur; each holds that month's posts and every row's post; its count, sums, upper median of the sorted views and the means of its views, likes and rates are those of its posts |
| `ProcessingV2.MonthsV2Keys` | process_data_v2.py:138-141 | a bucket exists exactly for each month that occurs among the rows |
| `ProcessingV2.MonthsV2Dated` | process_data_v2.py:141-155 | every post in a bucket is dated in that month |
| `ProcessingV2.MonthsV2Complete` | process_data_v2.py:141-155 | every row's post is in the bucket of its month |
| `ProcessingV2.MonthsV2Aggregates` | process_data_v2.py:162-172 | a bucket's count is its number of posts; its median is the upper median of its posts' views; its averages are the means of their views, likes and rates; its totals are the sums of its posts |
| `ProcessingV2.ViewCounts` | process_data_v2.py:306 | the views column of the posts |
| `ProcessingV2.LikeCounts` | process_data_v2.py:307 | the likes column of the posts |
| `ProcessingV2.Merged` | process_data_v2.py:292-327 | no "Sin artista" key; a key for exactly the labels of either pass; a platform entry exactly for that platform's labels, holding that platform's statistics |
| `ProcessingV2.ArtistTableEntries` | process_data_v2.py:292-327 | the artist table: no "Sin artista", an entry per artist labelled on either platform, each platform's entry present exactly when the artist has posts there and holding the statistics of those posts |
| `ProcessingV2.LabelRowsCounted` | process_data_v2.py:299-302 | an artist that labels some row has a non-empty row set, counted by `total_videos` |
| `ProcessingV2.TotalVideosCountsRows` | process_data_v2.py:302-321 | `total_videos` is the number of rows with that artist on that platform |
| `ProcessingV2.InstagramKeepsTikTok` | process_data_v2.py:317-320 | the Instagram pass never removes an artist or its TikTok entry |
| `ProcessingV2.UniqueLabels` | process_data_v2.py:295 | `unique()` lists each label exactly once |
| `ProcessingV2.TikTokStep` | process_data_v2.py:295-309 | one TikTok label adds its entry, except "Sin artista" |
| `ProcessingV2.InstagramStep` | process_data_v2.py:312-327 | one Instagram label adds its Instagram entry to the existing or a new entry, except "Sin artista" |
| `ProcessingV2.NoInstagramLabels` | process_data_v2.py:292 | before the Instagram pass, Instagram statistics play no part |
| `ProcessingV2.TikTokPass` | process_data_v2.py:294-309 | the TikTok loop builds the table of the TikTok rows alone |
| `ProcessingV2.MergeInstagram` | process_data_v2.py:312-327 | the Instagram loop merges one entry per label |
| `ProcessingV2.InstagramPass` | process_data_v2.py:311-327 | the Instagram loop completes the table of both sheets |
| `ProcessingV2.GenerateArtistStats` | process_data_v2.py:284-327 | both artist columns are normalised in place, then the table of both sheets is built |
| `ProcessingV1.ArtistOfLine` | process_data.py:18-24 | a kept line yields a non-empty name without surrounding quotes |
| `ProcessingV1.ArtistOfLineNone` | process_data.py:20-23 | a line is dropped exactly when it is blank, the `"main_artist"` header, or only quotes |
| `ProcessingV1.HeaderInner` | process_data.py:20 | the header line is `main_artist` in quotes |
| `ProcessingV1.Unquote` | process_data.py:22 | stripping quotes from a quoted name gives the name |
| `ProcessingV1.QuotedNameRoundTrip` | process_data.py:18-24 | a quoted name other than the header reads back as the name |
| `ProcessingV1.LoadedArtists` | process_data.py:14-25 | at most one name per line, none empty or quoted at either end |
| `ProcessingV1.LoadedArtistsAppend` | process_data.py:18-24 | the names of two blocks of lines are those of the first followed by those of the second: input order is kept |
| `ProcessingV1.LoadedArtistsOfLine` | process_data.py:18-24 | a single line yields its name or nothing |
| `ProcessingV1.LoadArtists` | process_data.py:16-25 | the reading loop yields exactly those names |
| `ProcessingV1.NormalizeText` | process_data.py:27-31 | the result holds only lower-case letters and digits and is no longer than the input |
| `ProcessingV1.NormalizeTextAppend` | process_data.py:31 | normalising a concatenation concatenates the normalised parts |
| `ProcessingV1.NormalizeTextFixed` | process_data.py:31 | a text is its own normalisation exactly when it holds only lower-case letters and digits |
| `ProcessingV1.NormalizeTextIdempotent` | process_data.py:27-31 | normalising twice is normalising once |
| `ProcessingV1.CalculateIr` | process_data.py:100-104 | IR is all interactions over views × 100, 0 without views, and non-negative for non-negative counters |
| `ProcessingV1.WordsFound` | process_data.py:76 | no more words are found than there are |
| `ProcessingV1.Rescore` | process_data.py:81-86 | the mention scan keeps the candidate or puts the artist in with a strictly higher score |
| `ProcessingV1.Fallback` | process_data.py:81-93 | one artist's fallback step keeps the candidate or puts the artist in with a strictly higher score |
| `ProcessingV1.RuleScan` | process_data.py:51-98 | the scan answers "Sin artista" or a listed artist |
| `ProcessingV1.FallbackOf` | process_data.py:81-93 | the fallback step never lowers the candidate's score |
| `ProcessingV1.FindArtistSpec` | process_data.py:33-98 | an empty description gives "Sin artista"; the answer is always "Sin artista" or a listed artist |
| `ProcessingV1.ScanEarly` | process_data.py:51-79 | the scan returns the first artist an early rule accepts |
| `ProcessingV1.FirstEarlyRuleWins` | process_data.py:51-79 | artists are tried in list order: the first one that a mention, whole-name or words rule accepts is the answer |
| `ProcessingV1.EmptyMentionNamesLongNames` | process_data.py:60-64 | a mention with no letter or digit, such as `@___`, names every artist whose normalised name is longer than 3 characters |
| `ProcessingV1.RatioMax` | process_data.py:82-86 | the best similarity is at least the starting score |
| `ProcessingV1.OwnScore` | process_data.py:81-93 | an artist's own fallback score is non-negative |
| `ProcessingV1.RatioMaxShift` | process_data.py:84 | starting the maximum higher only raises it to that start |
| `ProcessingV1.RescoreShape` | process_data.py:81-86 | the mention scan replaces the candidate exactly when the best similarity beats its score |
| `ProcessingV1.FallbackShape` | process_data.py:81-93 | an artist's fallback step replaces the candidate exactly when its own score beats the candidate's |
| `ProcessingV1.LeadingStep` | process_data.py:84-93 | after each artist, no earlier artist scores above the candidate, and the candidate is the first with its score |
| `ProcessingV1.ScanBest` | process_data.py:81-98 | without early rules the scan answers the first artist of maximal own score when it reaches 0.75, and "Sin artista" otherwise |
| `ProcessingV1.LeadingAnswers` | process_data.py:95-98 | a candidate leading over the whole list gives the first artist of maximal own score when it reaches 0.75, and "Sin artista" otherwise |
| `ProcessingV1.FallbackChoosesBest` | process_data.py:81-98 | without early rules `find_artist` answers "Sin artista" when every own score is below 0.75, and otherwise the first artist with the largest own score |
| `ProcessingV1.MatchMention` | process_data.py:55-64 | the mention loop succeeds exactly when some mention names the artist |
| `ProcessingV1.RescoreMentions` | process_data.py:82-86 | the similarity loop computes the mention scan |
| `ProcessingV1.CountWords` | process_data.py:76 | the words loop counts the words longer than 2 characters found in the description |
| `ProcessingV1.TryArtist` | process_data.py:52-93 | one artist: an early rule accepts it exactly when the early test succeeds, and otherwise the candidate takes its fallback step |
| `ProcessingV1.FindArtist` | process_data.py:33-98 | the loop with early returns computes `find_artist` |
| `ProcessingV1.TikTokVideo` | process_data.py:115-140 | the post carries the row's date, URL and counters, no description, "Sin artista", no collects, and `calculate_ir` of the counters |
| `ProcessingV1.TikTokVideos` | process_data.py:115-143 | one post per row, in row order |
| `ProcessingV1.DescriptionOf` | process_data.py:188 | the description is empty exactly when both description cells are empty |
| `ProcessingV1.ViewsOrReach` | process_data.py:194-197 | the views, or the reach when the views cell is not a number |
| `ProcessingV1.InstagramVideo` | process_data.py:204-217 | the post carries the row's date, link and counters, the description cut to 100 characters, the given artist, and `calculate_ir` of the counters |
| `ProcessingV1.InstagramVideos` | process_data.py:178-220 | no more posts than rows |
| `ProcessingV1.InstagramVideosMembers` | process_data.py:180-182 | the posts are exactly those of the dated rows, each labelled by `find_artist`; undated rows appear nowhere |
| `ProcessingV1.InstagramLabels` | process_data.py:180-217 | every Instagram post is dated, labelled "Sin artista" or a listed artist, and its description is at most 100 characters |
| `ProcessingV1.BucketV1` | process_data.py:155-165 | the bucket is keyed by its month, counts its posts and lists them |
| `ProcessingV1.BucketsV1` | process_data.py:146-165 | one bucket per month group |
| `ProcessingV1.MonthsV1Partition` | process_data.py:142-165 | a bucket for exactly the months that occur, labelled with its month, holding every post of that month and only posts whose date starts with it |
| `ProcessingV1.BucketV1Aggregates` | process_data.py:155-164 | the bucket's median is the true median, between the two middle views; the totals are the sums |
| `ProcessingV1.TikTokMonthsUnlabelled` | process_data.py:125-133 | TikTok buckets hold only unlabelled posts without description and count no collects |
| `ProcessingV1.BuildBucketV1` | process_data.py:147-165 | the aggregates of one month's posts |
| `ProcessingV1.BuildBucketsV1` | process_data.py:146-165 | the month loop builds one bucket per group |
| `ProcessingV1.AddToMonth` | process_data.py:142-143 | appending a post grows exactly its month's list |
| `ProcessingV1.ProcessTikTok` | process_data.py:106-167 | the month document of the TikTok rows' posts |
| `ProcessingV1.ProcessInstagram` | process_data.py:169-244 | the month document of the dated Instagram rows' posts, each labelled by `find_artist` |

## Left out

- File and sheet reading and writing are not modelled, nor JSON output, `print`, `fetch`, React state and rendering, and the Blob download. They are I/O and UI.
- Dates are not parsed:
  - a row carries its date text;
  - `strptime`, `strftime` and `to_period` are replaced by taking the first 7 (month) or 10 (day) characters;
  - a malformed date does not raise.
- Cell conversion is not modelled: `int(float(x or 0))`, `safe_int` and `safe_float`. Counters arrive as whole numbers. The one `safe_float` case kept is an infinite rate, which turns the month's mean IR into 0 in `ProcessingV2.AvgIrOf`.
- `round(x, 2)`, `toFixed` and number formatting are not modelled; values are exact reals. The CSV cell text is a parameter `show`.
- `difflib.SequenceMatcher(...).ratio()` is not modelled. It is the parameter `ratio`, with no assumption about its range.
- Character classes are ASCII: `lower()`, `isalnum()`, `\w`, `\b`, `str.strip()` and `split()`. Unicode letters outside ASCII count as non-letters.
- `ProcessingV1.WordsRule`: the 70% test compares exact reals, not the float `len(words) * 0.7`.
- The `artist_similarity` column and the classified-row counter of the second script are not modelled. They are never read.
- `load_artists` of the second script is not modelled. It reads a spreadsheet file as text.
- The second script's month buckets carry an empty `year_month`. That script does not write the field; the key of the month document holds the month.
- Violin:
  - the random jitter, the outline coordinates and the scaling of bins to the tallest bin are not modelled; they are cosmetic;
  - on an empty input, the scaling divides by zero.
- The table comparators at client/src/pages/Home.tsx:464-471 never return 0: for two equal values they answer -1 both ways round, so they are not consistent comparators, and JavaScript leaves the resulting order implementation-defined. The model states only that the result is a permutation ordered by the column; the order among equal values is not modelled.
- `ArtistRanking.TakeTop`: does not state which of several rows with equal metric survive the cut to 30. The comparator at client/src/pages/Home.tsx:588 is consistent and JavaScript's sort is stable, so equal rows keep the order of the candidates and the earlier ones are kept. The model states only that no row left out beats a kept row.
- `localeCompare` is plain lexicographic order. It agrees on digit-and-dash month keys.
- `ProcessingV2.LabelOfMentions`: does not state that a manual-mapping hit decides the label. That follows from `ArtistMatcher.BestArtistMatch`; it is not restated for the label.
- `ProcessingV2.ClassifyRows`: the per-row classification is a function given to a generic column loop, rather than a loop that calls the matcher method on each row.
- `ProcessingV2.MergeInstagram`: receives the Instagram statistics as a function of the label, so that this loop's proof stays independent of how the statistics are computed.
- `ProcessingV2.GenerateArtistStats`: requires the two sheets to be distinct arrays. The source receives two separate data frames.
