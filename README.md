# Recurring bills and merchant-name canonicalisation, in Dafny

This project models the core of a small personal-finance coach. The coach reads a user's transactions and reports their recurring bills. Two pieces of logic do the real work.

**Recurring-bill detection** (`utils.py`, modules `RecurringBills`, `DateSort`, `BillClassifier`):
- `detect_recurring_bills` works in these steps:
  - It drops charges whose absolute amount is below 5. A missing amount counts as 0.
  - It groups the remaining charges by transaction name, in first-occurrence order.
  - It skips groups with fewer than two charges.
  - It sorts each group by date. The sort is stable.
  - It rejects a group unless every gap between consecutive dates lies in 25–35 days.
  - It rejects a group unless (max − min) / mean of the amounts is below 0.3.
  - For each group that passes, it emits a bill with:
    - the mean amount;
    - the type;
    - the last date paid;
    - the count;
    - the chronological amount history;
    - a trend label: "increasing" when the mean of the last two amounts is above 1.1 × the mean of the rest, "decreasing" when it is below 0.9 × that mean, and "stable" otherwise or with fewer than three amounts.
- `classify_bill_type` lowercases the merchant name and tests eight keyword lists in a fixed priority order. The first list with a word occurring in the name gives the bill type. No match gives "Other". The amount argument is ignored.

**Merchant-name canonicalisation** (`utils_embeddings.py`, module `Canonicalizer`):
- `build_canonical_map_embeddings` trims every transaction's name, reads a blank or missing name as "Unknown", and removes duplicates, keeping first-occurrence order.
- It then makes one greedy pass over the distinct names:
  - a name joins the first most similar cluster when that similarity reaches the threshold, and that cluster's centroid is merged with the name's vector;
  - otherwise the name opens a new cluster labelled with itself.
- The result maps every distinct name to its cluster label.
- `normalize_transactions_with_embeddings` rewrites each transaction's name in place through that map.
- The sentence-embedding model is abstracted into three parameters:
  - `embed: string -> V`;
  - a similarity `sim: (V, V) -> real`;
  - the centroid update `merge: (V, V) -> V`.

**How the model is structured:**
- The source loops are methods. Each method's postcondition equates its result with a specification function. The properties the code promises are proved as lemmas about that function.
- Methods:
  - `RecurringBills.DetectRecurringBills`, with its helpers `GroupByName`, `ProcessGroup`, `BuildBill`, `ScanGaps`, `AmountCheck` and `TrendOf`;
  - `Canonicalizer.BuildCanonicalMap`;
  - `Canonicalizer.NormalizeTransactions`.
- Specification functions: `RecurringBills.Detect` and `Canonicalizer.CanonicalMap`.
- A transaction dictionary that the code changes in place is a `Transactions.Record` object.
- Python's built-ins are functions, as these Dafny names:
  - `list.sort` is `SortByDay`, an insertion sort, which is stable;
  - `max`, `min` and `sum`;
  - `numpy.argmax` is `ArgMax`;
  - `dict.fromkeys` is `Dedup`;
  - `str.strip` is `Strip`;
  - `str.lower` is `ToLower`.
- Amounts are exact reals. Dates are integer day numbers.

## Model

| member | source | states |
|---|---|---|
| RecurringBills.AbsAmount | utils.py:44 | the amount used is the absolute value of the transaction's amount, and 0 when it is missing |
| RecurringBills.GroupKey | utils.py:43 | models the grouping key: the transaction's name, "Unknown" when it is absent; `GroupNamesDistinct` and `DetectDistinct` state its consequences |
| RecurringBills.Kept | utils.py:44-48 | models the small-charge filter: a transaction is kept when its absolute amount is at least 5; `GroupsIgnoreSmall` and `DetectIgnoresSmallCharge` state that dropped transactions never matter |
| RecurringBills.GroupNames | utils.py:39-54 | models the dictionary's keys in insertion order; `GroupNamesDistinct` and `GroupNamesByFirstOccurrence` state its properties and `GroupByName` computes it by the source's loop |
| RecurringBills.GroupOf | utils.py:39-54 | models one dictionary entry, the kept entries of a name in input order; `GroupOfFacts` states its properties and `GroupByName` computes it |
| RecurringBills.GroupNamesDistinct | utils.py:39-54 | group names are pairwise distinct (one dictionary key per name) |
| RecurringBills.GroupOfFacts | utils.py:44-54 | every entry of a group has amount at least 5; a group is non-empty exactly when its name is listed |
| RecurringBills.FirstKept | utils.py:39-54 | the index of a name's first kept transaction: it is kept, has that name, and no earlier kept transaction has it |
| RecurringBills.GroupNamesByFirstOccurrence | utils.py:39-58 | groups are listed in the order of the first kept transaction of each name (dictionary insertion order) |
| RecurringBills.Max | utils.py:81 | the maximum is an element and bounds every element from above |
| RecurringBills.Min | utils.py:81 | the minimum is an element and bounds every element from below |
| RecurringBills.MaxDay | utils.py:104 | the latest day is an element and no element is later |
| RecurringBills.Sum | utils.py:82 | models Python's `sum`; `SumBounds` and `SumConstant` state its properties |
| RecurringBills.Mean | utils.py:82 | models `sum(amounts) / len(amounts)`, also the two averages of utils.py:92-93; `MeanBounds` states that it lies between the minimum and the maximum |
| RecurringBills.AmountVariance | utils.py:81 | models `max(amounts) - min(amounts)`; `BillAmounts` bounds the ratio built from it |
| RecurringBills.SumBounds | utils.py:82 | elements between lo and hi give a sum between lo·n and hi·n |
| RecurringBills.MeanBounds | utils.py:82 | the mean lies between the minimum and the maximum |
| RecurringBills.AmountTrend | utils.py:90-97 | models the trend rule; `TrendDirection` and `ConstantHistoryStable` state its properties and `TrendOf` computes it as the source does |
| RecurringBills.ConstantHistoryStable | utils.py:90-97 | a constant positive history has trend Stable |
| RecurringBills.TrendDirection | utils.py:90-97 | Increasing implies the recent mean exceeds the older mean and Decreasing implies it is below it |
| RecurringBills.ChronologicalFacts | utils.py:63-67 | the date-sorted group keeps its length, is ordered by day and keeps every amount at least 5 |
| RecurringBills.Chronological | utils.py:63-67 | models the sort by date and the parse of each date into a day; `ChronologicalFacts`, `ChronologicalDay` and `ChronologicalSource` state its properties |
| RecurringBills.AllDated | utils.py:63-66 | models "every entry of the group has a date", without which the sort and `fromisoformat` raise; `DetectErr` and `ProcessGroup` state the failure it decides |
| RecurringBills.GroupDated | utils.py:59-66 | models "the group does not raise": fewer than two charges (skipped before the sort) or all dated; `DetectErr`, `DetectLookup` and `ProcessGroup` use it |
| DateSort.InsertByDay | utils.py:63 | inserting adds exactly one occurrence of the charge |
| DateSort.InsertByDaySorted | utils.py:63 | inserting into a day-ordered list keeps it day-ordered |
| DateSort.SortByDayCorrect | utils.py:63 | the sort result is ordered by day and is a permutation of the input |
| DateSort.SortByDayStable | utils.py:63 | charges of the same day keep their input order (stability) |
| DateSort.SortedUnique | utils.py:63 | two day-ordered lists that agree on every day's charges are equal, so the stable sort result is unique |
| DateSort.SortByDay | utils.py:63 | models the in-place stable sort by date; `SortByDayCorrect`, `SortByDayStable` and `SortedUnique` state that it is the one stable day-ordered permutation |
| RecurringBills.IsMonthly | utils.py:70-77 | models the monthly-cadence test, every consecutive gap in 25–35 days; `ScanGaps` computes it by the flag loop and `OneBadGapRejects` and `DetectEmitsIff` use it |
| RecurringBills.VarianceRatio | utils.py:81-85 | models (max − min) / average of the spread test; `BillAmounts` states that it stays below 0.3 for every bill |
| RecurringBills.StableAmounts | utils.py:81-85 | models the spread test with a non-zero mean; `AmountCheck` computes it and `DetectEmitsIff` uses it |
| RecurringBills.MakeBill | utils.py:99-108 | models the bill record built for a passing group; `BillRecord`, `BillAmounts` and `BillLastPaid` state its fields |
| RecurringBills.GroupBill | utils.py:58-108 | a bill built for a group carries the group's name as merchant |
| RecurringBills.BillRecord | utils.py:99-108 | an emitted bill is monthly, its count equals the history length and is at least 2, its history is the group's amounts in date order, every gap is 25–35 days, the spread test holds, its amount is the mean, its type is the classification of the name and that mean, its trend follows the rule and last paid is the latest day |
| RecurringBills.BillAmounts | utils.py:81-85 | every history entry is at least 5, the amount lies between the history's min and max, and (max − min) / amount is below 0.3 |
| RecurringBills.BillLastPaid | utils.py:104 | last paid is no earlier than any date of the group, is one of them, and is the day of the last charge after sorting |
| RecurringBills.BillOf | utils.py:58-108 | the bill a name produces, if any, carries that name |
| RecurringBills.EmitBillsStep | utils.py:99 | processing one more name appends that name's bill, if any, to the output |
| RecurringBills.EmitBills | utils.py:56-110 | models the `recurring_bills` list built by appending each passing group's bill in group order; `EmitBillsStep`, `EmitBillsLookup`, `EmitBillsOrigin` and `EmitBillsOrdered` state its properties |
| RecurringBills.EmitBillsLookup | utils.py:58-99 | over distinct names, looking a name up in the output finds that name's bill exactly when the name is listed |
| RecurringBills.EmitBillsOrigin | utils.py:58-99 | every output bill comes from a listed name and is that name's bill |
| RecurringBills.EmitBillsOrdered | utils.py:58-99 | the output keeps the first-occurrence order of the names |
| RecurringBills.DetectErr | utils.py:63-66 | a group of two or more with a missing date makes the whole detection fail |
| RecurringBills.DetectEmpty | utils.py:35-36 | no transactions, no bills |
| RecurringBills.GroupsIgnoreSmall | utils.py:44-48 | removing a transaction whose absolute amount is below 5 leaves every group and the group order unchanged |
| RecurringBills.DetectIgnoresSmallCharge | utils.py:44-48 | removing a transaction whose absolute amount is below 5 leaves the detection result unchanged |
| RecurringBills.DetectLookup | utils.py:58-108 | on success, a name's bill in the output is exactly the bill of its own group |
| RecurringBills.GroupIndependence | utils.py:58-79 | whether and how a name is emitted depends only on that name's group |
| RecurringBills.DetectEmitsIff | utils.py:58-85 | a name is emitted if and only if its group has two or more charges, every gap is 25–35 days and the spread test holds |
| RecurringBills.OneBadGapRejects | utils.py:70-79 | one gap outside 25–35 days rejects the whole group |
| RecurringBills.DetectedBillOrigin | utils.py:99-108 | every output bill is the bill of a group of two or more dated charges under its merchant name |
| RecurringBills.DetectedBillFacts | utils.py:99-108 | every reported bill has count equal to its history length and at least 2, history entries of at least 5, amount between the history's min and max with spread ratio below 0.3, and last paid the latest date of its (fully dated) group |
| RecurringBills.GroupBillFacts | utils.py:99-108 | the same promises for the bill built from one group |
| RecurringBills.DetectOrdered | utils.py:39-58 | output merchants are ordered by the first occurrence of their name |
| RecurringBills.DetectDistinct | utils.py:39-58 | output merchants are pairwise distinct |
| RecurringBills.Detect | utils.py:33-110 | models the whole detection as a function; `DetectEmpty`, `DetectErr`, `DetectIgnoresSmallCharge`, `DetectEmitsIff`, `DetectLookup`, `GroupIndependence`, `OneBadGapRejects`, `DetectedBillFacts`, `DetectOrdered` and `DetectDistinct` state its properties |
| RecurringBills.ScanGaps | utils.py:70-77 | the flag loop with early exit returns true exactly when every consecutive gap lies in 25–35 days |
| RecurringBills.AmountCheck | utils.py:81-85 | the check passes exactly when the spread test holds, and it returns the mean |
| RecurringBills.TrendOf | utils.py:90-97 | the trend computed is the trend rule applied to the amounts |
| RecurringBills.BuildBill | utils.py:62-108 | sorting, checking and building a group gives that group's bill or none |
| RecurringBills.GroupByName | utils.py:39-54 | the grouping loop yields the group names in first-occurrence order and each name's group of kept entries |
| RecurringBills.ProcessGroup | utils.py:58-108 | one group fails exactly when it is undated, and otherwise gives that name's bill or none |
| RecurringBills.DetectRecurringBills | utils.py:33-110 | the procedure returns what the specification function Detect gives, whose properties the lemmas above state |
| BillClassifier.ToLowerIdempotent | utils.py:115 | lowercasing twice is lowercasing once |
| BillClassifier.ToLower | utils.py:115 | models `merchant.lower()` on ASCII letters; `ToLowerIdempotent` and `ClassifyCaseInsensitive` state its properties |
| BillClassifier.Contains | utils.py:117-131 | models `word in merchant_lower`; `ContainsAt` states that it is occurrence at some offset |
| BillClassifier.AnyOccurs | utils.py:117-131 | models `any(word in merchant_lower for word in …)`; `AnyOccursIff` states that it holds exactly when one word occurs |
| BillClassifier.Keywords | utils.py:117-131 | models the eight keyword lists, one per tested type, with the constants `Priority` (the types in the order of the `elif` chain) and `KeywordLists`; `KeywordsOf` states that the lists follow that order |
| BillClassifier.FirstMatch | utils.py:117-134 | models the `if`/`elif` chain as a search for the first matching list; `FirstMatchSpec` states that it returns the first match, and none only when no list matches |
| BillClassifier.BillType.Label | utils.py:118-134 | models the nine returned strings; `LabelsDistinct` states that they are pairwise distinct |
| BillClassifier.ContainsAt | utils.py:117 | substring containment holds exactly when the word occurs at some position |
| BillClassifier.AnyOccursIff | utils.py:117 | a keyword list matches exactly when one of its words occurs in the text |
| BillClassifier.KeywordsOf | utils.py:117-131 | the keyword lists follow the priority order of the rules |
| BillClassifier.FirstMatchSpec | utils.py:117-134 | the search returns the first matching list, no earlier list matches, and none means no list matches |
| BillClassifier.RuleTypesDistinct | utils.py:117-134 | the eight rule types are distinct and none is Other, so the result names one of nine labels unambiguously |
| BillClassifier.ClassifyDecider | utils.py:112-134 | the type is the type of the first matching rule, or Other when no rule matches |
| BillClassifier.ClassifyOther | utils.py:133-134 | the type is Other if and only if no keyword list matches |
| BillClassifier.ClassifyFirstMatch | utils.py:117-132 | the type is rule k's type if and only if rule k matches and no earlier rule does |
| BillClassifier.ClassifyCaseInsensitive | utils.py:112-115 | the type does not depend on letter case or on the amount |
| BillClassifier.ClassifyBillType | utils.py:112-134 | models the classifier as a total function onto the nine types; `ClassifyDecider`, `ClassifyFirstMatch`, `ClassifyOther` and `ClassifyCaseInsensitive` state which type it returns |
| BillClassifier.LabelsDistinct | utils.py:118-134 | two types have the same label string exactly when they are the same type, so the nine labels are distinct |
| Canonicalizer.TrimLeftSpec | utils_embeddings.py:19 | left trimming removes a whitespace prefix and stops at a non-space |
| Canonicalizer.TrimRightSpec | utils_embeddings.py:19 | right trimming removes a whitespace suffix and stops at a non-space |
| Canonicalizer.StripSpec | utils_embeddings.py:19 | the stripped name is a slice with only whitespace outside it, and it has no whitespace at either end |
| Canonicalizer.StripIdempotent | utils_embeddings.py:19 | stripping twice is stripping once |
| Canonicalizer.Strip | utils_embeddings.py:19 | models `str.strip()`; `StripSpec` and `StripIdempotent` state its properties |
| Canonicalizer.DisplayName | utils_embeddings.py:19 | models `(name or "").strip() or "Unknown"`; `DisplayNameSpec` and `DisplayNameIdempotent` state its properties |
| Canonicalizer.DisplayNameSpec | utils_embeddings.py:19 | the display name is never empty and has no surrounding whitespace; it is "Unknown" for a missing or blank name, and otherwise the name with its surrounding whitespace removed |
| Canonicalizer.DisplayNameIdempotent | utils_embeddings.py:53 | normalising a display name again changes nothing |
| Canonicalizer.RawNames | utils_embeddings.py:19 | one display name per transaction, in order |
| Canonicalizer.RawNamesMembers | utils_embeddings.py:19 | a name is listed exactly when it is the display name of some transaction |
| Canonicalizer.FirstIndex | utils_embeddings.py:20 | the position of the first occurrence of an element |
| Canonicalizer.Dedup | utils_embeddings.py:20 | the result has no duplicates and holds exactly the input's elements |
| Canonicalizer.DedupOrder | utils_embeddings.py:20 | the result lists elements in the order of their first occurrence |
| Canonicalizer.EmbedAll | utils_embeddings.py:24 | one vector per distinct name, in order |
| Canonicalizer.Sims | utils_embeddings.py:37 | the similarity of every centroid to the vector, in cluster order |
| Canonicalizer.ArgMax | utils_embeddings.py:38 | the index of the first greatest similarity |
| Canonicalizer.ClusterAll | utils_embeddings.py:29-47 | labels and centroids stay the same length |
| Canonicalizer.Assign | utils_embeddings.py:29-47 | models one iteration of the clustering loop; `AssignSpec` states when a name joins or opens a cluster and what changes |
| Canonicalizer.AssignSpec | utils_embeddings.py:37-47 | a name joins exactly when clusters exist and the first most similar one reaches the threshold; a join adds no label, maps the name to that cluster's label, merges only that centroid and leaves the others unchanged; otherwise the name opens a cluster labelled with itself with its vector as centroid, and every similarity is below the threshold |
| Canonicalizer.OpenWellFormed | utils_embeddings.py:44-47 | opening a cluster for a new name keeps labels distinct, keys exact, labels self-mapped and labels earlier |
| Canonicalizer.JoinWellFormed | utils_embeddings.py:41-43 | joining cluster j keeps labels distinct, keys exact, labels self-mapped and labels earlier |
| Canonicalizer.AssignConsistent | utils_embeddings.py:29-47 | one step of the pass over a new name preserves the pass invariant |
| Canonicalizer.ClusterAllConsistent | utils_embeddings.py:25-47 | over distinct names, the pass keeps these invariants: labels and centroids of equal length, at most one label per name, labels distinct, keys exactly the names, labels self-mapped, each name's label at the same or an earlier position, first name labelling the first cluster |
| Canonicalizer.MapWellFormed | utils_embeddings.py:18-49 | the returned map and the pass's labels satisfy that invariant over the distinct display names |
| Canonicalizer.CanonicalMapEmpty | utils_embeddings.py:19-22 | the map is empty if and only if there are no transactions |
| Canonicalizer.MapKeys | utils_embeddings.py:29-47 | the keys of the map are exactly the listed display names |
| Canonicalizer.CanonicalMapDomain | utils_embeddings.py:29-47 | a name is a key if and only if it is the display name of some transaction |
| Canonicalizer.CanonicalMapIdempotent | utils_embeddings.py:31-47 | every value is a key that maps to itself, so applying the map twice is applying it once, and every value is a display name |
| Canonicalizer.MapEarlier | utils_embeddings.py:29-47 | every distinct name's label is a name at the same or an earlier position |
| Canonicalizer.CanonicalMapEarlier | utils_embeddings.py:29-47 | every distinct name's label is a name at the same or an earlier position, and the first distinct name maps to itself |
| Canonicalizer.ClusterLabels | utils_embeddings.py:25-47 | labels and centroids have equal length, labels are distinct display names, there are no more labels than distinct names, and the first label is the first distinct name |
| Canonicalizer.CanonicalMap | utils_embeddings.py:18-49 | models the returned map, with the default threshold 0.85; `CanonicalMapEmpty`, `CanonicalMapDomain`, `CanonicalMapIdempotent`, `CanonicalMapEarlier` and `CanonicalMapClosed` state its properties |
| Canonicalizer.BuildCanonicalMap | utils_embeddings.py:18-49 | the loop over the distinct names returns exactly the canonical map, whose properties the lemmas above state |
| Canonicalizer.CanonicalMapClosed | utils_embeddings.py:18-49 | the map is closed: every value is a self-mapped key and its own display name |
| Canonicalizer.CanonicalizeIdempotent | utils_embeddings.py:53-54 | under a closed map, renaming an already renamed transaction changes nothing |
| Canonicalizer.Canonicalize | utils_embeddings.py:53-54 | models the new name of one transaction, the map's entry for its display name or else that display name; `CanonicalizeIdempotent` and `RenamedOnce` state its properties |
| Canonicalizer.RenamedOnce | utils_embeddings.py:52-54 | under a closed map, renaming a record any positive number of times is the same as renaming it once |
| Canonicalizer.Renamed | utils_embeddings.py:52-54 | models the name of a record renamed k times, as the loop does to a record listed k times; `RenamedOnce` states that under the built map this equals renaming once, and `NormalizeTransactions` uses it |
| Canonicalizer.NormalizeTransactions | utils_embeddings.py:51-55 | returns the same list; every record keeps all fields but the name, and its name becomes the map's entry for its display name (else that display name) once per occurrence in the list |

## Left out

- The repository's design specification (a prose description of the intended system, not shipped here) differs from the code on three points. The model follows the code in each:
  - **Spread threshold:** the design allows a spread ratio below 0.8; `utils.py:85` uses 0.3.
  - **Exceptions:** the design says no exception escapes detection. The code raises when a group of two or more kept charges has a missing date, which the model returns as `Err(MissingDate)`.
  - **Embedding fallback:** the design asks the canonicaliser to fall back to the identity map when the embedding model is unavailable. `utils_embeddings.py:2` and `utils_embeddings.py:8-12` import and load the model with no such fallback, so the model has none; the model's `embed` is always available.
- Reading and writing the data file (`load_data`, `save_data`), `get_insight`, the command-line program and the sample data are file I/O, presentation or static data. They are not part of this model.
- The anomaly score the design specification describes is computed by none of these files, so it is not modelled.
- The embedding model (`_get_model`, `_embed`), `numpy`'s matrix product and the vector normalisation on a join are abstracted as the parameters `embed`, `sim` and `merge`. Nothing is assumed about them, so no property depends on how similar two names are.
- Floating point is modelled as exact `real`. Float rounding, NaN similarities and their effect on `argmax` are not modelled.
- ISO date strings and `datetime.fromisoformat` are modelled as integer day numbers:
  - sorting the strings is sorting the days;
  - a malformed date string is not modelled.
- RecurringBills.AbsAmount: a JSON null amount is read as a missing amount (0). The code would raise on `float(None)`.
- RecurringBills.GroupKey: a JSON null name cannot be told apart from a missing one. Both group under "Unknown", while the code keys a null name as `None`. A `None`-keyed group that passes both checks makes the code raise at `utils.py:115` (`None.lower()`); the model emits an "Unknown" bill instead.
- BillClassifier.ToLower: lowercases ASCII letters only. Python's `str.lower` also folds non-ASCII letters.
- Canonicalizer.DisplayNameSpec: a blank name is read as "Unknown", exactly as the code does. The characters counted as whitespace are the ones Python's `str.isspace` accepts, written out as a fixed set.
- Canonicalizer.BuildCanonicalMap: the threshold defaults to 0.85 as in the source (`DefaultSimThreshold`); the float type of the argument is read as an exact real.
- RecurringBills.MaxDay: the latest day is a separate function from `Max` because amounts are reals and days are integers, and Dafny has no ordering shared by both.
- Canonicalizer.NormalizeTransactions: a record that appears k times in the list is renamed k times, as the code does. `RenamedOnce` shows that for a map the pass produced this equals renaming once. For an arbitrary map the k-fold result is what is stated.
