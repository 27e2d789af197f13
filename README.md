# TPC-H Query 5 ("Local Supplier Volume") in Dafny

This project models the query engine of a small C++ program that answers
TPC-H Query 5. For one region and one date window, the program adds up the
discounted price `price * (1 - markdown)` of every line item where the client
and the vendor come from the same nation. It groups the totals by nation
and ranks them by descending revenue. The six tables (regions, nations,
customers, orders, line items, suppliers) are read from `|`-separated `.tbl`
files. The orders are split among worker threads, and each worker merges its
local sums into a shared map under a mutex.

The model follows the program file by file:

- `schema_types.dfy` transcribes the six record structs of
  `assets/schema_types.h`. Money is `real`. The region's `label` field is
  named `zoneLabel`, because `label` is a Dafny keyword.
- `std_conversions.dfy` models `std::stoi` and `std::stod`. Each returns an
  `Option`, and `None` stands for the exception the library throws.
- `data_loader.dfy` models `safeStoi`/`safeStod` and the six loaders of
  `main/data_loader.cpp`:
  - `std::getline(ss, target, '|')` on a string stream is modelled exactly,
    including its failure state.
  - A short or blank line is therefore read as the C++ code reads it, with
    no precondition. A read on a stream that is no longer good leaves the
    target as it was; a read that finds no text left on a still-good stream
    (after a trailing `|`) clears it first.
  - Each loader is a `method` with a loop over the file's lines, proved
    against a per-line parse function.
- `cliconfig_parser.dfy` models `parseArguments` of
  `main/cliconfig_parser.cpp` as a function returning a `Result`.
- `revenue_spec.dfy` states what `main/index.cpp` computes, as functions and
  lemmas:
  - the lookup maps, where a later row overwrites an earlier one;
  - the join chain and filters of `calculateRevenue`;
  - the per-nation sums (`m[k] += v` creates a missing entry at 0);
  - the merge into the shared map;
  - the split of the orders among `threadCount` workers;
  - the ranking.

  The central theorems are `PartitionedRevenue` and `LockOrderIrrelevant`.
  Whatever the thread count and whatever order the mutex admits the
  workers in, the shared map equals the map a single worker computes over
  all the orders.
- `query_engine.dfy` is the imperative side of `main/index.cpp`:
  - the index-building loops;
  - the shared map as a class `RevenueMap` whose `MergeFrom` updates it in
    place;
  - `calculateRevenue`, with its nested loops and `continue` filters;
  - the worker loop;
  - the ranking;
  - `main` as a whole (`Query5`).

  Each method is proved against the functions of `revenue_spec.dfy`.

Dates are compared with `LexLess`, a model of `std::string`'s `operator<`
(lexicographic by character). Dafny's own `<` on sequences means "proper
prefix", which is a different relation.

## Model

| member | source | states |
|---|---|---|
| StdConversions.Stoi | main/data_loader.cpp:12 | `std::stoi` yields only values in the 32-bit `int` range; text without any digit is rejected (invalid_argument) |
| StdConversions.StoiOfSignedDigits | main/data_loader.cpp:12 | on white space, a sign and a run of digits that is not followed by a digit, `std::stoi` gives the signed value of the digits, or rejects it when outside the `int` range |
| StdConversions.StoiReadsIntToString | main/cliconfig_parser.cpp:21 | the decimal text of any `int`, followed by any text that does not start with a digit, is read back exactly |
| StdConversions.StoiRejectsOutOfRange | main/data_loader.cpp:12 | the decimal text of a number outside the `int` range is rejected (out_of_range) |
| StdConversions.Stod | main/data_loader.cpp:22 | text without any digit is rejected by the model of `std::stod` |
| StdConversions.FractionValue | main/data_loader.cpp:22 | the digits after a decimal point add a value in `[0, 1)` |
| StdConversions.StodOfSignedDigits | main/data_loader.cpp:22 | on white space, a sign and a run of digits followed by neither a digit, a `.`, an exponent `e`/`E` nor a hexadecimal `x`/`X`, `std::stod` gives the signed value of the digits |
| StdConversions.StodReadsIntToString | main/data_loader.cpp:22 | the decimal text of an integer, followed by nothing or by a character that is neither a digit, a `.`, `e`/`E` nor `x`/`X`, is read back as that number |
| DataLoader.SafeStoi | main/data_loader.cpp:10-17 | `safeStoi` gives the `std::stoi` value when the conversion succeeds and -1 when it throws; the result is always a 32-bit `int` |
| DataLoader.SafeStod | main/data_loader.cpp:20-27 | `safeStod` gives the `std::stod` value when the conversion succeeds and -1.0 when it throws |
| DataLoader.SafeStoiReadsInt | main/data_loader.cpp:10-17 | every 32-bit `int` written in decimal is read back by `safeStoi` |
| DataLoader.SentinelIsAmbiguous | main/data_loader.cpp:10-27 | the field "-1" and an unreadable (empty) field give the same value, for both `safeStoi` and `safeStod` |
| DataLoader.SplitJoin | main/data_loader.cpp:38-45 | the fields of a `|`-separated line are recovered from the line: splitting the join of pipe-free fields gives them back |
| DataLoader.Getline | main/data_loader.cpp:43-45 | definition of `std::getline(ss, target, '\|')` on a string stream; its meaning is proved by `DataLoader.GetlineReadsField` |
| DataLoader.GetlineReadsField | main/data_loader.cpp:43-45 | each `std::getline(ss, target, '\|')` yields the next field, whatever `target` held before; after the last field the stream is no longer good |
| DataLoader.ParseRegion | main/data_loader.cpp:39-46 | definition of the body of the region loop for one line; its meaning is proved by `DataLoader.RegionTakesFields` |
| DataLoader.RegionTakesFields | main/data_loader.cpp:38-47 | a region record is the key from field 0 (through `safeStoi`) and the name from field 1 |
| DataLoader.ParseNation | main/data_loader.cpp:60-67 | definition of the body of the nation loop for one line; its meaning is proved by `DataLoader.NationTakesFields` |
| DataLoader.NationTakesFields | main/data_loader.cpp:59-68 | a nation record is id from field 0, name from field 1 and region id from field 2 |
| DataLoader.ParseClient | main/data_loader.cpp:81-89 | definition of the body of the customer loop for one line; its meaning is proved by `DataLoader.ClientTakesFields` |
| DataLoader.ClientTakesFields | main/data_loader.cpp:80-90 | a client record is id from field 0 and nation from field 3; fields 1 and 2 are skipped |
| DataLoader.ParseOrder | main/data_loader.cpp:103-112 | definition of the body of the orders loop for one line; its meaning is proved by `DataLoader.OrderTakesFields` |
| DataLoader.OrderTakesFields | main/data_loader.cpp:102-113 | an order record is id from field 0, client from field 1 and date from field 4 |
| DataLoader.ParseLineItem | main/data_loader.cpp:126-137 | definition of the body of the line-item loop for one line; its meaning is proved by `DataLoader.LineItemTakesFields` |
| DataLoader.LineItemTakesFields | main/data_loader.cpp:125-138 | a line-item record is order from field 0, vendor from field 1, price from field 5 and markdown from field 6 (through `safeStod`) |
| DataLoader.ParseVendor | main/data_loader.cpp:151-161 | definition of the body of the supplier loop for one line; its meaning is proved by `DataLoader.VendorTakesFields` |
| DataLoader.VendorTakesFields | main/data_loader.cpp:150-162 | a vendor record is id from field 0, nation from field 3 and balance from field 5 |
| DataLoader.BlankLineGivesSentinels | main/data_loader.cpp:33-166 | a blank line gives -1 for every integer field, -1.0 for every real field and "" for every text field |
| DataLoader.ShortNationLineReusesId | main/data_loader.cpp:64-66 | on a nation line with only two fields, the failed third `getline` leaves `data` holding the id, so the region id equals the nation id |
| DataLoader.ShortLineItemLineReusesVendor | main/data_loader.cpp:130-136 | on a line-item line with only two fields, price and markdown are both read from the vendor field |
| DataLoader.LoadRecords | main/data_loader.cpp:38-162 | the `while (std::getline(file, line)) … push_back` loop shared by the six loaders (lines 38-47, 59-68, 80-90, 102-113, 125-138, 150-162): one record per line, blank lines included, each the parse of its line, in file order |
| DataLoader.LoadRegions | main/data_loader.cpp:33-51 | one region per line, in order, each the parse of its line |
| DataLoader.LoadNations | main/data_loader.cpp:54-72 | one nation per line, in order, each the parse of its line |
| DataLoader.LoadClients | main/data_loader.cpp:75-94 | one client per line, in order, each the parse of its line |
| DataLoader.LoadOrders | main/data_loader.cpp:97-117 | one order per line, in order, each the parse of its line |
| DataLoader.LoadLineItems | main/data_loader.cpp:120-142 | one line item per line, in order, each the parse of its line |
| DataLoader.LoadVendors | main/data_loader.cpp:145-166 | one vendor per line, in order, each the parse of its line |
| CliConfigParser.WithTrailingSlash | main/cliconfig_parser.cpp:23-24 | the data folder ends with `/`; it is the argument, extended by at most one character, and unchanged if it already ends with `/` |
| CliConfigParser.SlashAppendedOnce | main/cliconfig_parser.cpp:24 | a folder without a trailing `/` gets exactly one appended |
| CliConfigParser.SlashIdempotent | main/cliconfig_parser.cpp:24 | normalising the folder twice is the same as once |
| CliConfigParser.ParseArguments | main/cliconfig_parser.cpp:7-28 | any argument count other than 7 is a usage error; otherwise parsing succeeds exactly when `std::stoi` reads `argv[4]`, and the options are `argv[1..6]` by position, with the folder normalised |
| CliConfigParser.ZeroThreadCountAccepted | main/cliconfig_parser.cpp:21 | a thread count of 0 is accepted, as written |
| CliConfigParser.ParseArgumentsChecked | main/cliconfig_parser.cpp:21 | the corrected parser: it succeeds exactly when the original does with a thread count of at least 1, and then gives the same options |
| CliConfigParser.ZeroThreadCountRejected | main/cliconfig_parser.cpp:21 | the corrected parser rejects a thread count of 0 |
| RevenueSpec.LexLess | main/index.cpp:38 | definition of `std::string` `<` on the date strings; its meaning is proved by `RevenueSpec.LexLessMeaning` |
| RevenueSpec.LexLessMeaning | main/index.cpp:38 | string `<` holds exactly when the left string is a proper prefix of the right one or is smaller at the first differing position |
| RevenueSpec.LexLessProperPrefix | main/index.cpp:38 | a string is before every longer string it begins |
| RevenueSpec.LexLessAt | main/index.cpp:38 | two strings that agree before position k and differ at k are ordered by their characters at k |
| RevenueSpec.InWindowAt | main/index.cpp:38-39 | a date is in `[from, to)` when `from` is smaller at the first place they differ and the date is smaller than `to` at the first place those differ |
| RevenueSpec.LexLessIrreflexive | main/index.cpp:38 | no date is before itself |
| RevenueSpec.LexLessTrichotomy | main/index.cpp:38 | of two different strings exactly one is smaller |
| RevenueSpec.LexLessTransitive | main/index.cpp:38 | string `<` is transitive, so the window `[from, to)` is an interval |
| RevenueSpec.LastWriteKeys | main/index.cpp:113-132 | a lookup map has a key exactly when some row carries that key |
| RevenueSpec.LastWrite | main/index.cpp:113-132 | definition of a lookup map filled row by row with `map[key] = row`; its meaning is proved by `RevenueSpec.LastWriteWins` |
| RevenueSpec.LastWriteWins | main/index.cpp:113-132 | the value kept for a key is the one of the last row that carries it |
| RevenueSpec.NationMapsShareKeys | main/index.cpp:118-124 | the nation-name map and the nation-region map have the same keys |
| RevenueSpec.ItemsOf | main/index.cpp:136-137 | an order's line-item list holds only line items of that order, all taken from the input |
| RevenueSpec.ItemsByOrder | main/index.cpp:136-137 | definition of the order-to-line-items map; its meaning is proved by `RevenueSpec.ItemsByOrderLists` |
| RevenueSpec.ItemsByOrderLists | main/index.cpp:136-137 | an order has an entry exactly when some line item names it, and the entry lists its line items in input order |
| RevenueSpec.QualifyingNation | main/index.cpp:38-56 | definition of the order filters (date window, client, nation, region); its meaning is proved by `RevenueSpec.QualifyingNationMeaning` |
| RevenueSpec.QualifyingNationMeaning | main/index.cpp:37-56 | an order qualifies with nation n exactly when its date is in `[from, to)`, its client is known and has nation n, and n's region is known and carries the target name |
| RevenueSpec.OutsideWindowAddsNothing | main/index.cpp:38-39 | an order outside the date window adds nothing |
| RevenueSpec.UnresolvedOrWrongRegionAddsNothing | main/index.cpp:41-56 | an order whose client, nation or region cannot be resolved, or whose region is not the target, adds nothing |
| RevenueSpec.ItemContributionsAppend | main/index.cpp:64-81 | the line items' contributions to one order are taken item by item, so they distribute over concatenation |
| RevenueSpec.ItemContributions | main/index.cpp:64-81 | definition of the `(nation name, price * (1 - markdown))` pairs an order's line items add; its meaning is proved by `RevenueSpec.EachItemContributes` |
| RevenueSpec.EachItemContributes | main/index.cpp:65-80 | an order's contributions are those of the items before item i, then item i's own `(nation name, price * (1 - markdown))` when its vendor is known, in the client's nation, and that nation has a name (nothing otherwise), then those of the items after it |
| RevenueSpec.OrderContributions | main/index.cpp:30-82 | definition of the pairs one order adds (none when it does not qualify); its meaning is proved by `RevenueSpec.OutsideWindowAddsNothing` and `RevenueSpec.EachItemContributes` |
| RevenueSpec.RangeContributions | main/index.cpp:30-82 | definition of the pairs a run of orders adds, order by order; its meaning is proved by `RevenueSpec.RangeContributionsAppend` |
| RevenueSpec.RangeContributionsAppend | main/index.cpp:34-82 | the contributions of a run of orders are those of its parts, in order |
| RevenueSpec.AddTo | main/index.cpp:80 | `m[name] += amount` adds `name` to the keys, raises its entry (starting from 0) by `amount`, and leaves every other entry alone |
| RevenueSpec.Accumulate | main/index.cpp:30-82 | definition of `localSum[name] += value` over a list of pairs; its meaning is proved by `RevenueSpec.AccumulateSums` |
| RevenueSpec.Revenue | main/index.cpp:30-82 | definition of the map one worker builds from an empty `localSum` over a run of orders; its meaning is proved by `RevenueSpec.RevenueIsSumOverPairs` |
| RevenueSpec.AccumulateSums | main/index.cpp:30-82 | after accumulating, a nation has an entry exactly when it had one or some contribution names it, and its total is the old one plus the sum of its contributions |
| RevenueSpec.RevenueIsSumOverPairs | main/index.cpp:30-82 | a worker's map has an entry for a nation exactly when some qualifying (order, line item) pair names it, and its total is the sum of `price * (1 - markdown)` over those pairs |
| RevenueSpec.AccumulateAppend | main/index.cpp:80 | accumulating two runs of contributions is accumulating the first, then the second |
| RevenueSpec.Merged | main/index.cpp:86-88 | merging a local map adds each of its entries to the shared one (from 0 when missing) and leaves the other shared entries alone |
| RevenueSpec.GetMerged | main/index.cpp:87-88 | after a merge, every nation's total is its shared total plus its local total |
| RevenueSpec.MergedAccumulate | main/index.cpp:30-88 | merging a worker's local map is the same as adding its contributions to the shared map directly |
| RevenueSpec.MergedCommute | main/index.cpp:86-88 | two workers' merges commute |
| RevenueSpec.MergeAll | main/index.cpp:86-88 | definition of merging local maps one after another into the shared map; its meaning is proved by `RevenueSpec.MergeAllAnyOrder` |
| RevenueSpec.MergeAllAnyOrder | main/index.cpp:86-88 | merging the same local maps in any permuted order gives the same shared map |
| RevenueSpec.PartitionRange | main/index.cpp:145-153 | every worker's range lies within `[0, n)` and does not run backwards |
| RevenueSpec.PartitionRangeIsBetweenBoundaries | main/index.cpp:151-153 | worker i's range is `[Boundary(i), Boundary(i + 1))` |
| RevenueSpec.PartitionContiguous | main/index.cpp:145-153 | the ranges start at 0, end at n, and each begins where the previous one ends |
| RevenueSpec.PartitionCovers | main/index.cpp:145-153 | every order index falls in some worker's range and in no other |
| RevenueSpec.MoreWorkersThanOrders | main/index.cpp:145-153 | with more workers than orders, `split` is 0, so only the last worker gets orders, and it gets all of them |
| RevenueSpec.PartitionLocals | main/index.cpp:151-171 | definition: worker i's local map is taken to be the revenue of the orders in `PartitionRange(n, t, i)`; that the worker loop computes exactly this map is proved by `QueryEngine.SumOrders`, and that the k-th admitted worker merges it is proved by `QueryEngine.ScheduleStep` |
| RevenueSpec.MergePrefix | main/index.cpp:151-173 | merging the first i workers' maps gives the revenue of the orders before worker i's range |
| RevenueSpec.MergeNextRange | main/index.cpp:86-88 | merging the map of the orders in `[b, e)` into the revenue of the orders before b gives the revenue of the orders before e |
| RevenueSpec.PartitionedRevenue | main/index.cpp:142-173 | merging the workers' maps in any order into an empty map gives exactly the map of one pass over all orders |
| RevenueSpec.ThreadCountIrrelevant | main/index.cpp:145-173 | any two thread counts of at least 1 give the same result map |
| RevenueSpec.LockOrderIrrelevant | main/index.cpp:142-173 | for every order in which the mutex admits the workers (each once), the shared map ends as the single-pass revenue |
| RevenueSpec.InsertKeepsSorted | main/index.cpp:184 | inserting an entry into a sequence sorted by descending revenue keeps it sorted |
| RevenueSpec.InsertAddsEntry | main/index.cpp:184 | inserting adds exactly that entry and keeps every other one |
| RevenueSpec.RankingListsEachNationOnce | main/index.cpp:183-184 | a ranking lists every nation of the result exactly once, with its total, and nothing else |
| RevenueSpec.ExampleDateInWindow | main/index.cpp:38 | 1995-06-01 lies in the window `[1995-01-01, 1996-01-01)` |
| RevenueSpec.ExampleOrderQualifies | main/index.cpp:37-56 | an order in that window from a client in INDIA, a nation of ASIA, qualifies with INDIA |
| RevenueSpec.ExampleItemsContribute | main/index.cpp:64-80 | of a local line item (price 200, markdown 0.05) and a foreign one, only the local one contributes: INDIA, 190 |
| RevenueSpec.LocalSaleExample | main/index.cpp:30-82 | the worker's map for that order is exactly `INDIA: 190` |
| QueryEngine.BuildIndices | main/index.cpp:113-137 | the five loops build exactly the lookup maps: last row wins, and each line item is appended to its order's list |
| QueryEngine.RevenueMap.constructor | main/index.cpp:142 | the shared result map starts empty |
| QueryEngine.RevenueMap.MergeFrom | main/index.cpp:86-88 | after the merge loop, the shared map is the merge of its old contents and the local map |
| QueryEngine.AddLineItems | main/index.cpp:64-81 | the line-item loop adds exactly the contributions of the order's local line items to the local map |
| QueryEngine.SumOrders | main/index.cpp:30-82 | the order loop with its filters leaves the local map equal to the revenue of the orders in `[begin, end)` |
| QueryEngine.CalculateRevenue | main/index.cpp:17-89 | the worker merges exactly the revenue of its range into the shared map |
| QueryEngine.ScheduleStep | main/index.cpp:145-173 | the worker the mutex admits k-th works on `[i * split, (i + 1) * split)` (the last one up to n), which lies within the orders, and merges the revenue of exactly that range after the workers admitted before it |
| QueryEngine.RunWorkers | main/index.cpp:142-173 | for every admission order of the workers, the shared map ends equal to the revenue of all orders |
| QueryEngine.RankByRevenue | main/index.cpp:183-184 | the output is sorted by descending revenue and is a permutation of the result map's entries |
| QueryEngine.ExpectedRevenue | main/index.cpp:98-173 | definition of the revenue map a run builds from the parsed tables; that `main` computes it is proved by `QueryEngine.Query5` |
| QueryEngine.Query5 | main/index.cpp:93-184 | a rejected command line gives its error; otherwise the output ranks the revenue of the loaded tables for the given region and window. It parses with the corrected `CliConfigParser.ParseArgumentsChecked`, which rejects a thread count below 1; the source's `parseArguments` accepts one, and then 0 divides by zero at main/index.cpp:145 and a negative count gives an empty report |

## Left out

- Threads and the mutex are not modelled as such. The workers read only
  shared data that no one writes, and they touch the shared map only inside
  the critical section. So `RunWorkers` runs them one after another, in any
  admission order the caller gives (`schedule`), and is proved for all of
  them. `Query5` uses the order in which they are started.
- File and console I/O is left out. That covers opening `dataFolder +
  "region.tbl"` and the other files, the outer `std::getline(file, line)`
  loop, the result log, the `std::cerr` messages and `std::cout`. Each
  loader takes the lines of its file as a sequence. A file that cannot be
  opened corresponds to an empty sequence.
- The wall-clock timing with `std::chrono` is left out, and so is its line
  in the report. Neither affects any computed value.
- Formatting of the report (`label << ": " << val`) is left out. The model
  ends with the ranked sequence of (nation, revenue) pairs.
- Floating point is not modelled: prices, markdowns and sums are exact
  reals. In IEEE doubles, addition is not associative. With real threads,
  the source's totals can differ in the last bits from one merge order to
  the next, while the model's are equal in every order.
- StdConversions.Stod reads only plain decimal text: an optional sign, then
  digits with an optional fraction. It does not model exponents,
  hexadecimal floats, `inf` or `nan`, or rounding to a double. Text with an
  exponent or a hexadecimal prefix is read only up to the `e` or the `x`,
  which gives a different value: `"1e5"` gives 1.0 and `"0x1A"` gives 0.0
  here, where the library gives 100000 and 26. Only `inf` and `nan` give
  `None`, so `DataLoader.SafeStod` gives -1.0 for them where the library
  would succeed. Its out_of_range error for values beyond a double's range
  is not modelled either.
- StdConversions.StodOfSignedDigits requires the digits to be followed by
  the end of the text or by a character that is not a digit, `.`, `e`, `E`,
  `x` or `X`. After `e`/`E` or `0x` the library would read an exponent or a
  hexadecimal number, which the model does not.
- StdConversions.StodReadsIntToString has the same restriction on the text
  that follows the number, for the same reason.
- Wrap-around of the source's `int` arithmetic is not modelled. This
  affects `split`, `i * split`, `(i + 1) * split` and the `size_t`-to-`int`
  conversion of `orders.size()`. Integers are unbounded, which matches the
  source whenever there are fewer than 2^31 orders.
- Characters compare as Unicode code points. `std::string` compares bytes,
  and the two orders agree on ASCII text, which is what dates and names
  contain.
- The algorithm of `std::sort` is not modelled, only the result it
  promises: sorted by descending revenue and a permutation of the map.
  Equal revenues may come out in any order, as with `std::sort`.
- The iteration order of `std::unordered_map` is not modelled. Each loop
  over a map picks its next entry by a free choice (`:|`). The results are
  proved for every such order.
- Process exits are not modelled as exits. `exit(1)` on a wrong argument
  count becomes `Failure(UsageError)`. The exception that `std::stoi`
  throws on a bad thread count, which ends the process, becomes
  `Failure(BadThreadCount)`.
- CliConfigParser.ParseArguments requires a non-empty `argv[5]` when there
  are seven arguments. Calling `back()` on an empty string is undefined
  behaviour in the source.
- Negative thread counts are not modelled beyond rejecting them. In the
  source, `orders.size() / threadCount` converts the count to `size_t`, and
  the spawn loop then runs no times. The corrected parser rejects such a
  count before that point (see Findings).
- Parse failures are not treated specially. A line item whose price or
  markdown fails to parse gets -1.0 and still contributes
  `price * (1 - markdown)` like any other; the model keeps this, as the
  source does.

## Findings

| source | as written | input that shows it | evidently intended | confidence | as-written member | corrected member |
|---|---|---|---|---|---|---|
| main/cliconfig_parser.cpp:21 | the thread count is whatever `std::stoi` reads, with no check that it is positive; `main` then computes `orders.size() / opts.threadCount` at main/index.cpp:145, a division by zero for 0 | `query5 ASIA 1995-01-01 1996-01-01 0 data out.txt` | reject a thread count below 1; the usage text `<NUM_THREADS>` and its example `4` (main/cliconfig_parser.cpp:10-11) call for a positive number of threads | high; not executed | CliConfigParser.ZeroThreadCountAccepted | CliConfigParser.ParseArgumentsChecked |
