# Pricing engine of the AWS price calculator, in Dafny

This project models the pricing helpers of `awspricecalculator/common/phelper.py`:

- how much of a usage amount falls into one price tier (`getBillableBand`, `getBillableBandCsv`);
- how the rows returned by a price-list query are turned into a cost and a list of pricing records (`calculate_price`);
- how the keys of the partitioned index files are enumerated (`get_partition_keys`, `create_file_key`);
- how the SKU summary table is built (`buildSkuTable`).

It has five modules, one per file:

- `Wrappers` (`wrappers.dfy`) holds `Option` and `Result`.
- `BillableBand` (`billable_band.dfy`) holds the tier arithmetic, written as pure functions. Usage amounts and range bounds are integers. A finite or unbounded end is the datatype `EndRange` (`Infinity` stands for the INFINITY sentinel). A CSV row whose `StartingRange` or `EndingRange` cell is empty is modelled with `Option` and `EndCell`.
- `Pricing` (`pricing.dfy`) holds `calculate_price`.
  - It is a method with a loop.
  - The caller's `pricingRecords` list is the class `RecordList`, which the method appends to.
  - The query result is a sequence of rows.
  - `NoDataFoundError` is the `Failure(NoDataFound(service, query))` result, raised before anything changes.
  - What the loop computes is specified by the functions `NewRecords` and `AddedCost`.
  - `round(x, 4)` is modelled exactly on reals, with Python 2's rule of rounding halves away from zero.
- `PartitionKeys` (`partition_keys.dfy`) holds `create_file_key` and `get_partition_keys`, both as methods with loops.
  - The dictionaries of `consts` are parameters, given as `DimensionMap`. A `DimensionMap` is a sequence of key/code pairs whose order is the order of `.values()`.
  - `extraArgs` is given as `ExtraArgs`.
  - A missing key in a lookup gives `Failure(KeyError(key))`, the model of Python's `KeyError`.
  - The specification of the result is the nested cross product `RegionTuples`, encoded key by key with `FileKey`.
  - The product-family loop is in its own method, `AppendFamilyKeys`. The innermost three loops of the reserved term (offering class × tenancy × purchase option) are in another, `AppendReservedKeys`.
- `SkuTable` (`sku_table.dfy`) holds `buildSkuTable` as a method with a loop.
  - `sorted()` is the function `SortItems`, an insertion sort under Python 2's tuple and string ordering. It is proved to be the unique ascending permutation of its input.
  - `str()` of a number is a parameter `show`.

## Model

| member | source | states |
|---|---|---|
| BillableBand.BillableBand | awspricecalculator/common/phelper.py:26-40 | The band is 0 when usage is at or below the tier's begin (any unbounded tier, any finite tier with begin ≤ end). It is usage − begin for begin < usage ≤ end or an unbounded end, and end − begin once usage exceeds a finite end. On a well-formed tier it is never negative and never more than end − begin. |
| BillableBand.TierOf | awspricecalculator/common/phelper.py:48-53 | Defined by its body: an empty StartingRange reads as 0 and an empty EndingRange as INFINITY. Otherwise the cells are taken as given, and the unit price is carried over. |
| BillableBand.BillableBandCsv | awspricecalculator/common/phelper.py:43-66 | The band is the tier band of the row's tier. The price is returned as read. The charge is price × band when the band is positive and 0 otherwise, so it is price × band on every well-formed tier and never negative for a non-negative price. |
| BillableBand.BandCountsUnitsInTier | awspricecalculator/common/phelper.py:31-39 | On a well-formed tier, the band is exactly the number of integers k with begin < k ≤ usage (and k ≤ end for a finite tier). |
| BillableBand.BandMonotone | awspricecalculator/common/phelper.py:31-39 | On a well-formed tier, more usage never gives a smaller band. |
| BillableBand.SumBandsPrepend | awspricecalculator/common/phelper.py:26-40 | The total band of a tier list is the first tier's band plus the total of the rest. |
| BillableBand.ChainSplitsUsage | awspricecalculator/common/phelper.py:26-40 | For well-formed tiers that chain (each begins where the previous ends, and only the last may be unbounded), the bands add up to usage − begin, or 0 when usage ≤ begin. |
| BillableBand.ScheduleBillsAllUsage | awspricecalculator/common/phelper.py:26-40 | For a chained schedule starting at 0 and ending unbounded, every unit of a non-negative usage is billed in exactly one tier. |
| BillableBand.BandExamples | awspricecalculator/common/phelper.py:43-66 | Concrete rows: tier (0,100] at 2.0 bills 50 → 100.0, 150 → 200.0 and 0 → nothing. Tier (1000,∞) at 0.5 bills 1500 → 250.0 and 1000 → nothing. |
| Pricing.Round4 | awspricecalculator/common/phelper.py:180 | round(amt, 4) is within 0.00005 of amt, is a whole number of ten-thousandths, and never has the opposite sign of amt (a tiny amount may round to 0). |
| Pricing.RecordOf | awspricecalculator/common/phelper.py:180 | Defined by its body: the record of a row carries the service, round(amt, 4), the row's description, the unit price, the billable usage and the row's rate code. |
| Pricing.AddedCost | awspricecalculator/common/phelper.py:177-178 | The sum of every row's charge, which `cost = cost + amt` accumulates. It is never negative when no row has a negative price. |
| Pricing.NewRecords | awspricecalculator/common/phelper.py:176-181 | At most one record per row. Every record carries the service and a non-zero billable usage. |
| Pricing.RecordList.Append | awspricecalculator/common/phelper.py:181 | The list grows by exactly the appended record at its end. |
| Pricing.CalculatePrice | awspricecalculator/common/phelper.py:172-183 | An empty result set gives NoDataFound(service, query) and leaves the caller's record list unchanged. Otherwise the result is cost plus every row's charge. The list keeps its old records in front and gains, in row order, one record per row with non-zero billable usage. |
| Pricing.RecordedSumsAppend | awspricecalculator/common/phelper.py:176-183 | The recorded amounts and usages of two record lists add up over their concatenation. |
| Pricing.CostMatchesRecords | awspricecalculator/common/phelper.py:177-180 | The rounded amounts of the new records differ from the added cost by at most 0.00005 per record. |
| Pricing.TiersOf | awspricecalculator/common/phelper.py:48-51 | Defined by its body: one tier per row, the tier each row is read as. |
| Pricing.RecordedUsageIsSumOfBands | awspricecalculator/common/phelper.py:176-181 | The usage recorded for a query is the total band of its rows' tiers. |
| Pricing.RecordsBillAllUsage | awspricecalculator/common/phelper.py:176-181 | When the rows form a chained schedule from 0 and the usage is non-negative, the records bill exactly the usage. |
| Pricing.QueriesCompose | awspricecalculator/common/phelper.py:176-183 | Scoring the rows a then b gives the records of a followed by those of b, and the cost of a plus the cost of b. |
| Pricing.AggregationExample | awspricecalculator/common/phelper.py:172-183 | Three tiers and usage 40: only the tier (10,100] bills, giving one record of 30 units at 2.0 and a cost of 60.0. |
| PartitionKeys.Truthy | awspricecalculator/common/phelper.py:94-100 | Defined by its body: the `if region:` / `if term:` test, false for a missing argument and for the empty string. |
| PartitionKeys.GetOr | awspricecalculator/common/phelper.py:105-107 | Defined by its body: `extraArgs.get(name, default)`, the given list or else the default. |
| PartitionKeys.DimsOf | awspricecalculator/common/phelper.py:102-107 | Defined by its body: the product families, the offering classes, tenancies and purchase options (keyword argument, or else the map's values) and the reserved term code. |
| PartitionKeys.Values | awspricecalculator/common/phelper.py:97 | Defined by its body: `.values()` lists the codes of the map in entry order. |
| PartitionKeys.ValuesAreLookups | awspricecalculator/common/phelper.py:95-100 | In a map whose keys are distinct, as in a Python dictionary, the i-th code of `.values()` is what looking up the i-th key returns. |
| PartitionKeys.Lookup | awspricecalculator/common/phelper.py:95 | A dictionary lookup finds nothing exactly when no entry has the key. A found code belongs to an entry with that key. |
| PartitionKeys.Select | awspricecalculator/common/phelper.py:94-100 | A falsy choice selects every code of the map. A truthy choice selects the single mapped code, or fails with KeyError of that choice exactly when the map lacks it. |
| PartitionKeys.StripSpaces | awspricecalculator/common/phelper.py:130 | replace(' ', '') leaves no space and never lengthens the text. |
| PartitionKeys.Concat | awspricecalculator/common/phelper.py:128-129 | Defined by its body: the dimensions concatenated in order, which `result += d` accumulates. |
| PartitionKeys.FileKey | awspricecalculator/common/phelper.py:127-130 | A file key never contains a space. |
| PartitionKeys.CreateFileKey | awspricecalculator/common/phelper.py:127-130 | The loop builds exactly the key FileKey: the in-order concatenation of the dimensions with the spaces removed. |
| PartitionKeys.StripSpacesAppend | awspricecalculator/common/phelper.py:130 | Removing spaces distributes over concatenation. |
| PartitionKeys.StripSpacesKeepsSpaceFree | awspricecalculator/common/phelper.py:130 | Text without spaces is left as it is. |
| PartitionKeys.FileKeyAppend | awspricecalculator/common/phelper.py:127-130 | Adding a dimension extends the key by that dimension without its spaces. |
| PartitionKeys.FileKeyOfSpaceFreeCodes | awspricecalculator/common/phelper.py:127-130 | For space-free codes, the key is their plain concatenation. |
| PartitionKeys.ConcatPair | awspricecalculator/common/phelper.py:128-129 | Two dimensions concatenate to their juxtaposition. |
| PartitionKeys.KeysCanCollide | awspricecalculator/common/phelper.py:127-130 | Two different tuples (US, EAST) and (USE, AST) get the same key, so keys are not collision-free. |
| PartitionKeys.KeysOf | awspricecalculator/common/phelper.py:118-120 | The key of each tuple, in order (defined by its body). No key contains a space. |
| PartitionKeys.KeysOfConcat | awspricecalculator/common/phelper.py:110-120 | Encoding distributes over concatenation of tuple lists. |
| PartitionKeys.PurchaseOptionTuples | awspricecalculator/common/phelper.py:117-118 | One tuple per purchase option. |
| PartitionKeys.TenancyTuples | awspricecalculator/common/phelper.py:116-118 | Tenancies × purchase options tuples. |
| PartitionKeys.OfferingClassTuples | awspricecalculator/common/phelper.py:115-118 | Offering classes × tenancies × purchase options tuples. |
| PartitionKeys.CellTuples | awspricecalculator/common/phelper.py:114-120 | One (region, term, family) cell yields the term's weight: 1 tuple, or the reserved cross product. |
| PartitionKeys.FamilyTuples | awspricecalculator/common/phelper.py:112-120 | Families × the term's weight tuples. |
| PartitionKeys.TermTuples | awspricecalculator/common/phelper.py:111-120 | The terms' summed weights of tuples. |
| PartitionKeys.RegionTuples | awspricecalculator/common/phelper.py:110-120 | Regions × the terms' weight tuples. |
| PartitionKeys.GetPartitionKeys | awspricecalculator/common/phelper.py:92-123 | An unknown region gives its KeyError. A known region with an unknown term gives the term's KeyError. Otherwise the result is the keys of the nested region × term × family cross product, extended for the reserved term by offering class × tenancy × purchase option, in loop order. |
| PartitionKeys.AppendFamilyKeys | awspricecalculator/common/phelper.py:112-120 | The product-family loop for one region and term appends, after the existing keys, the keys of all that pair's tuples in loop order: 3-tuples for an ordinary term, and the reserved cross product for the reserved term. |
| PartitionKeys.AppendReservedKeys | awspricecalculator/common/phelper.py:115-118 | The three inner loops append, after the existing keys, the keys of all (r, t, pf, oc, ten, po) tuples in loop order. |
| PartitionKeys.PurchaseOptionMember | awspricecalculator/common/phelper.py:117-118 | A tuple is produced exactly when it is the prefix followed by one purchase option. |
| PartitionKeys.TenancyMember | awspricecalculator/common/phelper.py:116-118 | A tuple is produced exactly when it is the prefix, a tenancy and a purchase option. |
| PartitionKeys.OfferingClassMember | awspricecalculator/common/phelper.py:115-118 | A tuple is produced exactly when it is the prefix, an offering class, a tenancy and a purchase option. |
| PartitionKeys.CellMember | awspricecalculator/common/phelper.py:114-120 | A cell produces exactly the 3-tuple for a non-reserved term, and exactly the valid 6-tuples for the reserved term. |
| PartitionKeys.FamilyMember | awspricecalculator/common/phelper.py:112-120 | A tuple is produced for a region and term exactly when its family is a supported one and its tail fits the term. |
| PartitionKeys.TermMember | awspricecalculator/common/phelper.py:111-120 | A tuple is produced for a region exactly when its term is among the selected terms and the rest fits. |
| PartitionKeys.KeySpaceMembership | awspricecalculator/common/phelper.py:110-120 | The enumerated tuples are exactly the combinations of the selected codes: 3-tuples for ordinary terms, 6-tuples for the reserved term. |
| PartitionKeys.PartitionKeysCoverKeySpace | awspricecalculator/common/phelper.py:110-123 | The key of every valid combination is among the returned keys. |
| PartitionKeys.PartitionKeysComeFromKeySpace | awspricecalculator/common/phelper.py:110-123 | Every returned key is the key of some valid combination of the selected codes. |
| PartitionKeys.TermsWeightWithoutReserved | awspricecalculator/common/phelper.py:111-120 | Without the reserved term, every term contributes one tuple per family. |
| PartitionKeys.KeyCountForOneTerm | awspricecalculator/common/phelper.py:92-123 | For one term, the key count is regions × families × (offering classes × tenancies × purchase options when the term is reserved, else 1). |
| PartitionKeys.KeyCountWithoutReserved | awspricecalculator/common/phelper.py:92-123 | Without the reserved term, the key count is regions × terms × families. |
| PartitionKeys.QueryKeyCount | awspricecalculator/common/phelper.py:92-123 | For a successful call with a term given: 1 region if one is given, else every region of the map. This is multiplied by families and by the reserved cross product when the term is the reserved one. |
| SkuTable.StrLeTotal | awspricecalculator/common/phelper.py:73 | Any two strings are comparable. |
| SkuTable.StrLeAntisymmetric | awspricecalculator/common/phelper.py:73 | Strings that compare both ways are equal. |
| SkuTable.StrLeTransitive | awspricecalculator/common/phelper.py:73 | String order is transitive. |
| SkuTable.ItemLeTotal | awspricecalculator/common/phelper.py:73 | Any two line-item tuples are comparable. |
| SkuTable.ItemLeAntisymmetric | awspricecalculator/common/phelper.py:73 | Tuples that compare both ways are equal. |
| SkuTable.ItemLeTransitive | awspricecalculator/common/phelper.py:73 | Tuple order is transitive. |
| SkuTable.Insert | awspricecalculator/common/phelper.py:73 | Inserting adds exactly the one item to the multiset of items. |
| SkuTable.SortItems | awspricecalculator/common/phelper.py:73 | sorted() keeps exactly the same items, counted with multiplicity. |
| SkuTable.InsertKeepsSorted | awspricecalculator/common/phelper.py:73 | Inserting into an ascending list keeps it ascending. |
| SkuTable.SortItemsSorted | awspricecalculator/common/phelper.py:73 | sorted() returns an ascending permutation of its input. |
| SkuTable.SortedPermutationsShareHead | awspricecalculator/common/phelper.py:73 | Two ascending permutations of the same items start with the same item. |
| SkuTable.SortedPermutationsEqual | awspricecalculator/common/phelper.py:73 | Two ascending permutations of the same items are identical. |
| SkuTable.SortIsTheSortedPermutation | awspricecalculator/common/phelper.py:73 | Any ascending permutation of the input is what sorted() returns. |
| SkuTable.Line | awspricecalculator/common/phelper.py:78 | The line of one item: "$", the amount, then the description, unit price, usage and rate code separated by vertical bars. It starts with "$" and ends with a newline. |
| SkuTable.Lines | awspricecalculator/common/phelper.py:77-78 | Defined by its body: the lines of the items concatenated in order, which the loop accumulates in `result_records`. |
| SkuTable.SumAmounts | awspricecalculator/common/phelper.py:76-79 | The sum of the items' amounts, which `total = total + s[0]` accumulates. It is never negative when no amount is negative. |
| SkuTable.BuildSkuTable | awspricecalculator/common/phelper.py:71-84 | The header is the fixed string. The records are one line per item of the sorted input, in sorted order. The total is the sum of the input's amounts. |
| SkuTable.SumAmountsAppend | awspricecalculator/common/phelper.py:79 | The total distributes over concatenation. |
| SkuTable.SumAmountsOfInsert | awspricecalculator/common/phelper.py:73-79 | Inserting an item adds its amount to the total. |
| SkuTable.SumAmountsOfSort | awspricecalculator/common/phelper.py:73-79 | Sorting does not change the total. |
| SkuTable.OccurrencesAppend | awspricecalculator/common/phelper.py:78 | Newline counts add up over concatenation. |
| SkuTable.OccurrencesAbsent | awspricecalculator/common/phelper.py:78 | Text without a newline has none. |
| SkuTable.LineHasOneNewline | awspricecalculator/common/phelper.py:78 | An item whose rendered fields contain no newline renders as exactly one line. |
| SkuTable.LinesCount | awspricecalculator/common/phelper.py:77-78 | Such items render as exactly as many lines as there are items. |
| SkuTable.TableLineCount | awspricecalculator/common/phelper.py:73-82 | When no field of any item renders with a newline, the table's records have exactly one line per input tuple. |
| SkuTable.SortedByAmount | awspricecalculator/common/phelper.py:73-78 | The table lists the items by ascending amount, the cheapest first. |

## Left out

- `get_data_directory`, `loadDBs` and `getIndexMetadata` are file-system and database I/O (paths, `/tmp` directory creation, CSV and JSON reading, TinyDB persistence). They are not modelled.
- `db.search(query)`: the TinyDB query language is a foreign library. The query result is a parameter (a sequence of rows). The query itself is kept only for the error value.
- The `Timestamp` class is wall-clock instrumentation and is not modelled.
- Floating point: prices and amounts are exact reals, so float rounding error in `pricePerUnit * billableBand` and in the running cost is not modelled. `round(x, 4)` is modelled as exact half-away-from-zero rounding of a real.
- `float()` and `int()` parsing of the CSV cells, and the `ValueError` they raise on malformed text: rows arrive already parsed.
- `str()` of numbers in the SKU table is the parameter `show`. Only the structure of a line, the line count, the order and the total are proved.
- SkuTable.Line: `str()` of the description is taken as the identity. Under Python 2, `str()` of a unicode description with a non-ASCII character raises UnicodeEncodeError. That error path is not modelled, and the rate code is concatenated as it is.
- Usage amounts are integers. A fractional usage amount, which the Python code would also accept, is not modelled.
- The contents of the `consts` maps (REGION_MAP, TERM_TYPE_MAP, SUPPORTED_PRODUCT_FAMILIES, the EC2 maps, TERM_TYPE_RESERVED) are parameters.
- `calculate_price` returns its updated list and cost. The model changes the list in place and returns the cost, so the aliasing of the returned list with the argument is not modelled separately.
- BillableBand.BillableBand: "0 at or below begin" and "never more than end − begin" are stated only for tiers with begin ≤ end. For an inverted finite tier (end < begin) the code returns the negative end − begin once usage exceeds end, and the model keeps that.
- Pricing.CalculatePrice: a record is appended when the billable usage is non-zero, which is the code's truthiness test. That is also the case for the negative band of an inverted tier, and the model does not narrow it to positive bands.
- PartitionKeys.QueryKeyCount: states the key count only when a term is given. With no term, the count is regions × the summed term weights, which the contract of `RegionTuples` states.
- Keys are not collision-free, and there are no explicit errors for negative usage or typed errors for an unknown dimension. The code implements none of these; an unknown region or term gives only the lookup's KeyError.
