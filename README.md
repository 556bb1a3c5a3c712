# Door pricer core, modelled in Dafny

Dave's Door Pricer is a quoting and production tool for door sets: a leaf (or a pair of
leaves), a timber frame (two legs and a head, cut from a jamb profile) and a door stop. This
project models its deterministic core:

- **Pricing** (`core/pricing.py`): width banding, the leaf price table lookup with its
  "price on application" (POA) outcome, the jamb thickness read from a profile name such as
  `"US14 92x18"`, and the frame and stop costs with their minimum charge.
- **Sku** (`core/sku.py`): the product code `prefix + thickness + height + width +
  PH<stop>-<face>`, with `-PR` for a pair.
- **ProductionHelpers** (`core/production_helpers.py`): final (cut) height, production head
  length, frame and stop metres, grouping of measured doors by (final height, leaf type),
  and the aggregate stock strategies "Only 5.4", "Only 2.1" and the greedy mix (two loops).
- **Stock** (`core/stock.py`): the floor-division stock split, whose "waste" is the part of
  the total left uncovered, not an offcut.
- **Production** (`ui/production.py`): expansion of quote lines into one row per door set,
  the production parser of the jamb thickness, the calculation rows, door blanks, the piece
  lists and stock sets, and the first-fit-decreasing cut-list builder.
- **Estimator** (`ui/estimator.py`): hinge and description lookup, the POA gate, costing of
  one quote line, the quote session (a class whose `rows`, customer and project are updated
  in place by "Add Line" and "Reset All") and the sell/margin summary.
- **SaveLoad** (`core/save_load.py`): the quote names of a directory listing and the next
  quote number suggested from them.
- **Text** and **Wrappers**: Python's `str(int)`, `int(str)`, `float(str)`, `str.split()`,
  `str.replace(pat, "")`, `sorted()` on strings, the leftmost match of `\d+x\d+`-style
  patterns, `Option`, and the "filter then take the first row" table lookup.

Lengths are integer millimetres, metres and prices are `real` (exact rationals), so 5.4 m and
2.1 m are exact. Tables are plain values (a sequence of rows, a map of frame prices), the
settings are a datatype passed in, and the directory listing is a sequence of names.

The model keeps these behaviours of the code:

- A stored quote line's "Total Cost" is its unit cost times its quantity; the six
  components add up to the "Unit Cost" (`ui/estimator.py:124-134`).
- A production group takes its descriptive fields from its first member in input order
  (pandas `"first"`), with no check that the members agree.
- The production head gap is 6 mm for `"Single"` and 3 mm for every other form, not only
  for `"Double"`.
- The quoting parser reads the number after the `x` of the first `<digits>x<digits>` in
  the jamb name, not a trailing number.
- A piece longer than every stock length is put on a new length of the longest stock and
  shows a negative waste; nothing flags it. Pieces of length zero or less are placed like
  any other.
- The overall margin is guarded against a zero sell price, but the per-line margin column is
  not: there it is `None` (NaN or infinity in the table).
- The estimator stores a line's leaf type under the column "Leaf" (`ui/estimator.py:144`),
  while the production tab reads it from a column "Leaf Type" (`ui/production.py:31, 281`).
  Both reads fail with a `KeyError` on every quote the estimator builds; see "## Findings".
  The rest of the model reads the leaf type from the estimator's column.

## Model

| member | source | states |
|---|---|---|
| `Wrappers.FirstIndex` | core/pricing.py:19-24 | the index found is the first row that meets the condition; `None` exactly when no row does |
| `Text.IntToString` | core/pricing.py:10 | `str(n)`: a non-empty numeral, digits after an optional leading minus, and the minus exactly for negative numbers |
| `Text.ParseInt` | core/save_load.py:27 | `int(s)` succeeds exactly on a non-empty run of digits with at most one leading sign; digits read as their decimal value, `-` negates and `+` keeps it |
| `Text.ParseIntOfIntToString` | core/pricing.py:10 | `int(str(n)) == n` for every integer |
| `Text.IntToStringInjective` | core/pricing.py:10 | different integers render differently |
| `Text.FirstPair` | core/pricing.py:31 | the leftmost `<digit><sep><digit>` position, or `None` when the text has none |
| `Text.FirstPairIs` | core/pricing.py:31 | a separator position with no earlier one is the leftmost match |
| `Text.GroupBefore` | core/sku.py:5 | the first capture group: the whole run of digits that ends just before the separator |
| `Text.GroupAfter` | core/sku.py:6 | the second capture group: the greedy run of digits right after the separator |
| `Text.SortStrings` | core/save_load.py:17 | `sorted()`: the result is ordered and holds the same names, with multiplicity |
| `Pricing.WidthBand` | core/pricing.py:7-10 | widths 410..810 get the shared band label; every other width gets its own decimal numeral |
| `Pricing.WidthBandIsNarrowIff` | core/pricing.py:7-10 | the band is `"410-810"` if and only if the width lies in 410..810: no numeral can be mistaken for the label |
| `Pricing.WidthBandSharedIff` | core/pricing.py:7-10 | two widths share a band exactly when both are narrow or they are the same width |
| `Pricing.LeafPrice` | core/pricing.py:15-25 | POA (`None`) exactly when no row has the height and the width band; otherwise the thickness cell of the first matching row, an empty cell reading 0.0 |
| `Pricing.LeafPriceNonNegative` | core/pricing.py:15-25 | a table without negative prices never yields a negative leaf price |
| `Pricing.ParseJambThickness` | core/pricing.py:30-32 | the digits after the `x` of the first `<digits>x<digits>` (lower-case `x`), else 18 |
| `Pricing.FrameCostAndPieces` | core/pricing.py:37-56 | leg = height + 23; head = 2·width + 9 + 2·thickness for a double, width + 6 + 2·thickness otherwise; metres·1000 = 2·leg + head; cost is the metres at the jamb's rate raised to the minimum charge |
| `Pricing.FrameCharge` | core/pricing.py:53-54 | `max(metres·rate, minimum)`: at least each of the two and equal to one of them |
| `Pricing.FrameLengthMonotone` | core/pricing.py:41-51 | a taller or wider door never needs fewer frame metres |
| `Pricing.ChargeMonotone` | core/pricing.py:53-54 | at a non-negative rate, more metres never cost less |
| `Pricing.CostFollowsLength` | core/pricing.py:53-54 | of two frames charged at one non-negative rate, the longer costs at least as much |
| `Pricing.FrameCostMonotone` | core/pricing.py:37-54 | with a non-negative price per metre the frame cost is non-decreasing in height and in width |
| `Pricing.StopCost` | core/pricing.py:61-63 | the stop costs at least the minimum and at least metres times rate, and is one of the two |
| `Sku.Face` | core/sku.py:4-5 | the face is a non-empty run of digits, `"0"` when the jamb name holds no `<digits>[xX]<digits>` |
| `Sku.Stop` | core/sku.py:4-6 | the stop is a non-empty run of digits, `"0"` when the jamb name holds no pair |
| `Sku.FaceStopOfPair` | core/sku.py:4-6 | in `<c><a><sep><b><rest>` whose first pair is `<a>[xX]<b>` (no pair in c, c not ending in a digit nor in a digit followed by a separator, rest not starting with a digit), the face is a and the stop is b |
| `Sku.ExampleLetterBeforePair` | core/sku.py:4-6 | `"Ax12x3"` has face 12 and stop 3: a separator after a letter starts no pair |
| `Sku.CreateSku` | core/sku.py:3-10 | every input gives a code; it starts with the prefix and with the base code, and is three characters longer than the base exactly for a double |
| `Sku.PairSuffixIff` | core/sku.py:10 | the code ends in `-PR` if and only if the form is `"Double"` |
| `Sku.PhCodeAtEnd` | core/sku.py:7-9 | the base code ends with `PH` + stop + `-` + face |
| `Sku.NoPairCodesZero` | core/sku.py:4-7 | a jamb name without a face/stop pair codes as `PH0-0` |
| `Sku.StopMatchesJambThickness` | core/sku.py:4-6 | for a name with no upper-case `X` holding a pair, the stop in the code is the thickness the pricing engine reads |
| `Sku.ExamplePhCode` | core/sku.py:4-7 | `"US14 92x18"` codes as `PH18-92` |
| `Sku.ExampleNumbers` | core/sku.py:9 | `"35mm"` loses its `mm`; 1980 and 810 render as their numerals |
| `Sku.ExampleCodes` | core/sku.py:3-10 | `("P","35mm",1980,810,"US14 92x18")` codes as `P351980810PH18-92`, and with `-PR` for a double |
| `ProductionHelpers.CalcFinalHeight` | core/production_helpers.py:8-13 | the final height exceeds the leaf height by the 3 mm clearance plus undercut plus floor height |
| `ProductionHelpers.CalcHeadLength` | core/production_helpers.py:20-30 | head minus width minus two jamb thicknesses is 6 for `"Single"` and 3 for every other form |
| `ProductionHelpers.SingleHeadThreeLonger` | core/production_helpers.py:20-30 | a single head is exactly 3 mm longer than any other form's head with the same inputs |
| `ProductionHelpers.QuoteHeadVersusProductionHead` | core/production_helpers.py:20-30 | the quoting head equals the production head for a single, exceeds it by a width plus 6 mm for a double and by 3 mm for any other form |
| `ProductionHelpers.CalcFrameLengths` | core/production_helpers.py:37-55 | metres per door ·1000 = 2·leg + head; total = per door · qty; stop metres = frame metres |
| `ProductionHelpers.DistinctKeys` | core/production_helpers.py:82 | the group keys in strictly ascending (final height, leaf type) order; every row's key is listed and every listed key has a row |
| `ProductionHelpers.GroupProductionRows` | core/production_helpers.py:73-93 | the groups are listed in key order, and each group's quantity is the sum of its members' quantities |
| `ProductionHelpers.GroupKeysExact` | core/production_helpers.py:82-91 | exactly one group per distinct key: keys ascend strictly, each row's key has a group, each group's key has a row |
| `ProductionHelpers.GroupFieldsFromFirstMember` | core/production_helpers.py:82-91 | quote line, leaf height, width, jamb thickness and form of a group are those of its first member in input order |
| `ProductionHelpers.GroupsDistinct` | core/production_helpers.py:82-91 | no key is grouped twice |
| `ProductionHelpers.GroupingPreservesTotalQty` | core/production_helpers.py:82-91 | the group quantities add up to the total quantity of the rows |
| `ProductionHelpers.Ceil` | core/production_helpers.py:106 | `math.ceil`: the least integer not below its argument |
| `ProductionHelpers.Only54` | core/production_helpers.py:105-108 | ceil(m/5.4) long lengths, no short ones, the offcut as waste, which lies in [0, 5.4) |
| `ProductionHelpers.Only21` | core/production_helpers.py:110-113 | ceil(m/2.1) short lengths, no long ones, the offcut as waste, which lies in [0, 2.1) |
| `ProductionHelpers.MixSpec` | core/production_helpers.py:115-131 | bought − m = waste; for m > 0 the waste lies in [0, 2.1) with one to three short lengths; nothing is bought for m ≤ 0 |
| `ProductionHelpers.MixLengths` | core/production_helpers.py:115-131 | the two greedy loops compute the closed form above |
| `ProductionHelpers.ApplyStockStrategy` | core/production_helpers.py:100-138 | "Only 5.4", "Only 2.1", and the greedy mix for any other name; the waste is always the bought length minus the total |
| `ProductionHelpers.MixExactlyOneLongLength` | core/production_helpers.py:121-131 | because the 5.4 test is strict, 5.4 m is bought as three 2.1 m lengths with 0.9 m waste |
| `ProductionHelpers.MixExamples` | core/production_helpers.py:115-131 | 7 m is one 5.4 m and one 2.1 m length with 0.5 m waste; 0 m buys nothing |
| `Stock.GreedyStock` | core/stock.py:1-13 | nothing for a non-positive total; otherwise ⌊total/5.4⌋ long and at most two short lengths, bought + uncovered waste = total, with waste in [0, 2.1) |
| `Stock.SplitUnderbuysMixOverbuys` | core/stock.py:8-13 | the floor split buys at most the total and reports the shortfall; the greedy mix buys at least the total and reports the offcut |
| `Stock.SplitLongCountAgainstMix` | core/stock.py:8-10 | the floor split takes as many long lengths as the mix, or one more |
| `Stock.SplitExample` | core/stock.py:8-13 | 7 m splits into one 5.4 m length with 1.6 m uncovered |
| `Production.LineDoors` | ui/production.py:26-40 | the doors of one quote line: as many as its sets, numbered on consecutively |
| `Production.ExpandedShape` | ui/production.py:19-42 | one row per door set; row k is door number k + 1 of an existing quote line with the default measurements; rows follow line order |
| `Production.ExpandedLength` | ui/production.py:24-26 | the expansion has as many rows as the quote has door sets |
| `Production.ExpandedRows` | ui/production.py:27-40 | row k is door `k + 1` of its quote line, with undercut 20, floor height 0 and not measured |
| `Production.ExpandedOrdered` | ui/production.py:24-29 | the rows' quote lines never decrease |
| `Production.ExpandedLinesBelow` | ui/production.py:24-29 | every row points at one of the quote lines |
| `Production.DoorNumbersDistinct` | ui/production.py:22-40 | no two rows share a door number |
| `Production.DoorsPerLine` | ui/production.py:24-26 | each quote line contributes exactly its number of sets (none for a negative quantity) |
| `Production.ExpandLine` | ui/production.py:26-40 | the inner loop appends the line's doors and advances the counter by their number |
| `Production.ExpandQuoteRows` | ui/production.py:19-42 | the two loops build the expansion: numbered 1..N, none measured |
| `Production.ExpandReading` | ui/production.py:24-31 | reading the leaf type from a given column, the expansion either fails or is the expansion above |
| `Production.ExpandReadingFailsIff` | ui/production.py:24-31 | the expansion fails exactly when the leaf column is missing and some line has a door set |
| `Production.TotalSetsPositiveIff` | ui/production.py:24-26 | there are door sets exactly when some line has a quantity of one or more |
| `Production.LeafTypeIsNoQuoteColumn` | ui/estimator.py:140-166 | `"Leaf Type"` is not a column of the rows the estimator builds |
| `Production.ExpandAsWrittenFails` | ui/production.py:31 | as written, expanding an estimator-built quote fails exactly when some line has a quantity of one or more |
| `Production.ExpandAsWrittenFailsOnOneDoor` | ui/production.py:31 | as written, a quote of one line with quantity 1 already fails |
| `Production.ExpandAsIntended` | ui/production.py:19-42 | reading the estimator's `"Leaf"` column, the expansion never fails and equals `Expanded` |
| `Production.SelectColumns` | ui/production.py:281 | `df[cols]` succeeds exactly when every wanted column is present, and keeps their order |
| `Production.BlankSelectionAsWrittenFails` | ui/production.py:281 | as written, selecting the door-blank columns from the quote rows plus `"Leaves"` and `"Total"` fails |
| `Production.BlankSelection` | ui/production.py:281 | with `"Leaf"` in place of `"Leaf Type"` every door-blank column is present |
| `Production.LastSegment` | ui/production.py:74 | `t.split(sep)[-1]`: the separator-free tail of the text, preceded by a separator when shorter than the text |
| `Production.ExtractJambThicknessFirstXWord` | ui/production.py:69-77 | the thickness is read from the first whitespace word containing an `x` |
| `Production.ExtractJambThicknessNoXWord` | ui/production.py:69-77 | without a word containing an `x` the thickness is 18 |
| `Production.ExtractJambThicknessOfProfileName` | ui/production.py:69-77 | `"<code> <a>x<b>"` with no `x` in the code reads as b |
| `Production.ParseJambThicknessOfProfileName` | core/pricing.py:30-32 | the quoting parser reads b from `"<code> <a>x<b>"` when the code holds no digit-x-digit |
| `Production.ThicknessOfFirstPair` | core/pricing.py:30-32 | when the first digit-x-digit is followed only by digits, the quoting parser reads all of them |
| `Production.ThicknessParsersAgree` | ui/production.py:69-77 | on a well-formed profile name the production and quoting parsers give the same thickness |
| `Production.ThicknessParsersDiverge` | ui/production.py:69-77 | when an earlier word holds an `x` not followed by a number, production reads 18 while quoting reads the real stop |
| `Production.ThicknessParsersDivergeExample` | ui/production.py:69-77 | `"Box 92x30"`: production reads 18, quoting reads 30 |
| `Production.FinalHeightOf` | ui/production.py:214 | the inline final height agrees with `calc_final_height` |
| `Production.CalcRowOf` | ui/production.py:212-248 | leg = final height; production head from the parsed thickness; frame metres·1000 = 2·leg + head; stop metres = frame metres |
| `Production.DefaultLegIsQuotedLeg` | ui/production.py:214-222 | with the default measurements the production leg equals the quoting leg (height + 23) |
| `Production.CalcRows` | ui/production.py:210-250 | one calculation row per door row, in order |
| `Production.BlankCount` | ui/production.py:273-279 | blanks = quantity × (1 for a single, 2 otherwise) |
| `Production.BlanksAreChargedLeaves` | ui/production.py:273-279 | the blanks ordered are the leaves the quote charged for: per-set leaf cost × qty = leaf price × blanks |
| `Production.Trunc` | ui/production.py:355-356 | `int()` of a float truncates toward zero |
| `Production.PieceList` | ui/production.py:352-359 | three pieces per row |
| `Production.PieceLayout` | ui/production.py:354-358 | row i gives pieces 3i and 3i+1 (its leg twice) and 3i+2 (its truncated head) |
| `Production.BuildPieces` | ui/production.py:353-358 | the loop builds that piece list |
| `Production.JambProfileShape` | ui/production.py:291 | the profile is the text after the leading whitespace up to the next whitespace or the end |
| `Production.ProfileColumn` | ui/production.py:291 | the profile column holds each row's profile |
| `Production.ProfilesPartitionPieces` | ui/production.py:352-373 | the stop pieces are the pieces of one profile together with those of all others |
| `Production.ProfileMetresPartition` | ui/production.py:292-297 | grouping by profile loses and duplicates no metres |
| `Production.StopMetresAreFrameMetres` | ui/production.py:306-309 | the stop metres equal the frame metres |
| `Production.ProfileStockSummary` | ui/production.py:329-339 | a profile's metres are its rows' frame metres, bought under the chosen strategy |
| `Production.StockSet` | ui/production.py:360-364 | `[5400]` for "Only 5.4", `[2100]` for "Only 2.1", both lengths for anything else; never empty |
| `Production.SortDesc` | ui/production.py:82 | the pieces longest first, same pieces with multiplicity |
| `Production.ChooseStock` | ui/production.py:98 | a new bin takes the shortest stock length that holds the piece, else the longest |
| `Production.ChooseShortStock` | ui/production.py:98 | with both lengths a piece of at most 2100 mm gets a 2100 mm length |
| `Production.PlaceFirstFit` | ui/production.py:87-103 | the piece goes into the first bin with room; only when none has room is a new bin opened at the end |
| `Production.PlacePiece` | ui/production.py:88-103 | the inner loop performs that placement |
| `Production.BuildCutList` | ui/production.py:81-114 | the builder computes the first-fit-decreasing cut list |
| `Production.Rows` | ui/production.py:105-112 | one output row per bin, in opening order |
| `Production.CutRows` | ui/production.py:105-112 | the loop writes those rows |
| `Production.PackAllOrdered` | ui/production.py:82-93 | pieces placed longest first leave every bin's cuts longest first |
| `Production.PackAllConservesPieces` | ui/production.py:87-103 | the bins hold exactly the pieces placed, none lost or duplicated |
| `Production.CutListProperties` | ui/production.py:81-112 | every piece appears exactly once; each row's cuts are non-empty and longest first, its stock chosen for its first cut, used = sum of cuts, waste = stock − used, negative only for one piece longer than every stock |
| `Production.CutListMixDoor` | ui/production.py:81-112 | pieces 2003, 2003, 1200 (and any leg/head pair alike) over 2100 and 5400 give three 2100 mm rows, waste 97, 97 and 900 |
| `Production.CutListLongDoor` | ui/production.py:81-112 | the same door over 5400 alone gives one row, used 5206, waste 194 |
| `Production.ProfileCutList` | ui/production.py:352-366 | a profile's cut list packs its legs twice and heads once over the profile's stock set |
| `Production.StopCutList` | ui/production.py:368-381 | the stop cut list packs the pieces of every row over the stop stock set |
| `Estimator.HingeLookup` | ui/estimator.py:51-57 | counts from the first row with this exact height and width, else hinges per door and hinges × screws per hinge |
| `Estimator.Description` | ui/estimator.py:62-63 | the description of the first row with this code, else `"DESCRIPTION NOT FOUND"` |
| `Estimator.PoaGate` | ui/estimator.py:79-97 | a listed price goes through; without one the first press records a 0 entry and stops, a 0 entry stops, a non-zero entry is used and cleared |
| `Estimator.NoLineWithoutPrice` | ui/estimator.py:79-97 | a line is costed only on a listed price or a non-zero entered one, and an entered one is the one used |
| `Estimator.PoaTwoStep` | ui/estimator.py:79-97 | an unpriced door needs two presses: one to ask, one after a non-zero price is entered |
| `Estimator.LeafMultiplier` | ui/estimator.py:102 | one leaf exactly for `"Single"`, two otherwise |
| `Estimator.CostLine` | ui/estimator.py:102-167 | unit cost is the exact sum of the six stored components; total = qty × unit; leaf cost = leaves × price; hinges and screws scale by leaves; frame and stop come from the pricing engine, each at least the minimum charge |
| `Estimator.QuoteSession.constructor` | app.py:43-50 | a new session has no lines, no customer, no project |
| `Estimator.QuoteSession.AddLine` | ui/estimator.py:68-169 | appends exactly one priced line at the end when the POA gate lets the door through, nothing otherwise; earlier lines, customer and project are kept |
| `Estimator.QuoteSession.Reset` | ui/estimator.py:236-239 | no lines, no customer, no project; POA entries stay |
| `Estimator.LineMargin` | ui/estimator.py:181-182 | no margin exactly when the sell price is 0; otherwise margin × sell = (sell − cost) × 100 |
| `Estimator.SumSellIsSellOfSum` | ui/estimator.py:181-187 | summing the lines' sell prices is selling the summed cost |
| `Estimator.QuoteSummary` | ui/estimator.py:181-188 | lines, quantity and cost are the sums; total sell = cost × (1 + markup/100); margin from sell and cost when sell > 0, else 0 |
| `Estimator.MarginFromMarkup` | ui/estimator.py:181-188 | with a positive total sell the margin is markup / (100 + markup) × 100 |
| `SaveLoad.StemsMembership` | core/save_load.py:16 | a name is a quote name exactly when some `.json` file of the listing carries it |
| `SaveLoad.ExistingQNumbers` | core/save_load.py:13-17 | the quote names, sorted, with multiplicity |
| `SaveLoad.StemOfQuoteFile` | core/save_load.py:16 | the `.json` file of a quote number carries that number |
| `SaveLoad.ParsedNumbersStep` | core/save_load.py:25-29 | one more name adds its number when `int` accepts it and nothing otherwise |
| `SaveLoad.ParsedNumbersMembership` | core/save_load.py:24-29 | a number is collected exactly when some quote name yields it |
| `SaveLoad.CollectNumbers` | core/save_load.py:24-29 | the loop collects the numbers of the names that parse, in order |
| `SaveLoad.MaxInt` | core/save_load.py:32 | `max`: an element no smaller than any other |
| `SaveLoad.MaxOfParsed` | core/save_load.py:30-32 | the largest collected number is the largest number any quote name yields |
| `SaveLoad.FormatQ` | core/save_load.py:33 | `Q` followed by at least four characters |
| `SaveLoad.FormatQRoundTrip` | core/save_load.py:27-33 | a quote number reads back as the number it was formatted from |
| `SaveLoad.FormatQInjective` | core/save_load.py:33 | different numbers give different quote numbers |
| `SaveLoad.FormatQOne` | core/save_load.py:21-33 | the first suggestion `Q0001` is the quote number of 1 |
| `SaveLoad.FormatQTen` | core/save_load.py:33 | 10 is written `Q0010` |
| `SaveLoad.FormatQMinusFour` | core/save_load.py:33 | a minus sign takes one of the four places: −4 is written `Q-004` |
| `SaveLoad.SuggestNextQ` | core/save_load.py:20-33 | the method computes the suggestion |
| `SaveLoad.NextQEmpty` | core/save_load.py:21-23 | an empty listing suggests `Q0001` |
| `SaveLoad.NextQIsFormatted` | core/save_load.py:20-33 | every suggestion, the fall-backs included, is the quote number of one more than the largest collected number, or of 1 |
| `SaveLoad.NextQExceedsExisting` | core/save_load.py:20-33 | the suggestion reads back as a number larger than that of every existing quote |
| `SaveLoad.NextQFresh` | core/save_load.py:20-33 | the suggestion is not an existing quote number |
| `SaveLoad.NextQFileIsNew` | core/save_load.py:13-33 | saving under the suggestion overwrites no file of the listing |
| `SaveLoad.NextQOfLargest` | core/save_load.py:30-33 | the suggestion depends only on the largest existing number m: it is the quote number of m + 1 |
| `SaveLoad.NextQAfterTwoQuotes` | core/save_load.py:13-33 | quotes numbered m ≤ n and a non-quote file, in any listing order, suggest the number of n + 1 (e.g. Q0001, Q0009 give Q0010) |

## Findings

| source | as written | input that shows it | evidently intended | confidence | as-written member | corrected member |
|---|---|---|---|---|---|---|
| ui/production.py:31 | `row["Leaf Type"]`, on rows that carry the leaf type under `"Leaf"` (`ui/estimator.py:144`) | a quote of one line with quantity 1 | `row["Leaf"]` | not executed | `Production.ExpandAsWrittenFails` | `Production.ExpandAsIntended` |
| ui/production.py:281 | selects a `"Leaf Type"` column, absent from the quote rows | any non-empty quote | select `"Leaf"` | not executed | `Production.BlankSelectionAsWrittenFails` | `Production.BlankSelection` |

## Left out

- `Production.DoorOf` reads the leaf type from the estimator's `"Leaf"` column; the source
  reads `"Leaf Type"` (`ui/production.py:31`) and raises `KeyError` instead (see
  "## Findings"). As written, no path reaches `ui/production.py:214-381` with a door:
  expanding an estimator-built quote with a door set fails at line 31; the rows of an
  imported order form (`pdf/door_order_import.py:55-64`) have no "Height", "Undercut" or
  "FinishedFloorHeight" column, so line 214 fails on the first of them; and line 281 fails on
  every quote the estimator builds. `Production.FinalHeightOf`, `Production.CalcRowOf`,
  `Production.CalcRows`, `Production.BlankCount`, `Production.BlanksAreChargedLeaves` and the
  piece, stock and cut-list members describe that code with the leaf column corrected, for
  the rows `expand_quote_rows` builds.
- `Production.ExpandedShape` describes the expansion with the leaf column corrected; as
  written the expansion of a quote with a door set fails (`Production.ExpandAsWrittenFails`).
- `Production.ExpandedRows` likewise describes the rows with the leaf column corrected.
- `Production.LineDoors` likewise builds the doors with the leaf column corrected.
- `Production.ExpandLine` likewise appends the doors with the leaf column corrected.
- `Production.ExpandQuoteRows` likewise returns the corrected expansion, which the source
  reaches only for a quote without door sets.
- Streamlit widgets, page flow (`st.stop`, reruns) and rendering: the user's choices arrive
  as a `DoorInput`, a strategy name or a list of names. The "Add Line" press is one call of
  `AddLine`; a `st.stop()` is a `Halt` outcome of the POA gate.
- File and spreadsheet I/O: `os.listdir`, `ensure_quotes_dir`, `save_quote`, `load_quote`,
  the hinge-sheet and price-table loaders, PDF and XLSX export and import. The directory
  listing is a parameter; `core/settings.py` is not part of this model, so every price and
  default arrives as `Settings`.
- `parse_csv_measurements` (pandas type coercion and `dropna`).
- Floating point: metres and prices are exact rationals, so `0.1`-style rounding of the
  5.4/2.1 loops and of `/1000` is not reproduced; the `round(…, 2)` of the stop metres
  (`ui/production.py:308`) and the display formatting of the summary are not modelled.
- Python `int()` and `float()` are modelled on an optional sign and ASCII digits (with an
  optional fraction for `float`); surrounding whitespace, underscores, exponents, `inf`/`nan`
  and non-ASCII digits are not accepted. Regex `\d` is ASCII digits only.
- `Production.JambProfile` requires a jamb type with at least one word, and so do
  `Production.ProfileColumn` and the members built on it; on a blank jamb type the source's
  `str(j).split()[0]` (`ui/production.py:291`) raises `IndexError`, which is not modelled.
  The estimator's jamb types are frame-price names (`ui/estimator.py:40`).
- `Production.CalcRowOf` does not carry the "Hinges" and "LeafThickness" columns looked up
  from the quote (`ui/production.py:230, 237`), nor the "Cuts (mm)" text of a cut-list row
  (`ui/production.py:109`); the cuts are kept as a sequence.
- `Production.ProfileStockSummary` and `Production.ProfileCutList` model one profile of the
  `groupby("JambProfile")` loop; the order in which pandas enumerates the profiles is not
  modelled. `Production.ProfilesPartitionPieces` and `Production.ProfileMetresPartition`
  state that the profiles split the rows without loss.
- `Estimator.QuoteSession.Reset` leaves pending POA entries in place, as the source does.
- The quantity widget's `min_value=1` is not imposed: any integer quantity is costed.
- Broken wiring outside the core: the keyword arguments passed to the production PDF
  generator (`ui/production.py:400-411`) and the `delete_quote` import of the quote lookup
  tab; neither is modelled.
