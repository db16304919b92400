# Dune token-holder analytics, modelled in Dafny

This project models the data layer of a small analytics tool for two
stablecoin tokens, COPM on Polygon and COPW on Ethereum. The tool fetches
each token's holders from the Dune SIM API, loads them into a pandas table
sorted by balance, and computes holder metrics and a COPM/COPW comparison.
The model covers:

- the configuration read from the environment: defaults, and validation
  of the required variables (`DuneConfig`, config.dfy);
- the API wrapper: the token-holders URL, the HTTP call and its status
  check, and the conversion of the JSON `holders` list into a table whose
  balance column is numeric and sorted from largest to smallest
  (`DuneEndpoints`, endpoints.dfy);
- the table helpers (`DuneHelpers`, dune_helpers.dfy):
  - normalising raw balances by `10^decimals`;
  - filtering by token address;
  - holder metrics;
  - the two-row comparison table;
  - the display projection;
- the numeric utilities: safe division, percentage change, and the
  aggregate dictionary built by a loop over the operation names
  (`Numbers`, numbers.dfy).

The model has these supporting parts:

- **Table.** A pandas DataFrame is a `Frames.Table`: an ordered list of
  column labels and a list of rows. Every row maps exactly those labels to
  cells.
- **Cell.** A cell is a `Value`: text, a number (exact `real`), a boolean
  flag, or missing.
- **Frame.** `normalize_token_balance` writes into the caller's DataFrame.
  So the frame it works on is a class, `Frames.Frame`, with column and row
  fields that `SetColumn` (`df[col] = ...`) reassigns.
- **HttpClient.** The HTTP client is a class, `DuneEndpoints.HttpClient`,
  that records every request. It answers each URL the way a given server
  function does. That function stands in for the network.
- **Errors.** Python exceptions become `Errors.Error` values in a `Result`:
  - a missing column is `KeyError`;
  - an arithmetic aggregate over text or missing cells is `NotNumeric`;
  - a `float()` that fails is `ConversionError`;
  - `raise_for_status` is `HttpError`;
  - `validate_config`'s `ValueError` is `ConfigError`.
- **Decimal.** `Decimal` prints integers the way `str(int)` does and parses
  decimal numerals.
- **Defaults.** Python default arguments are Dafny default parameters with
  the same values: `decimals := 18`, `balanceCol := "balance"`,
  `outputCol := "balance_token"`, `tokenCol := "token"`, `columns := None`,
  `operations := None` and `default := 0.0`.

## Model

| member | source | states |
|---|---|---|
| Decimal.ParseNat | src/api/dune/endpoints.py:50 | parsing succeeds exactly on non-empty digit strings |
| Decimal.NatToString | src/api/dune/endpoints.py:43 | `str(n)` for a natural number is a digit string with no leading zero |
| Decimal.ParseNatToString | src/api/dune/endpoints.py:43-50 | a printed natural number parses back to itself |
| Decimal.DigitsValueOfNatToString | src/api/dune/endpoints.py:43 | the value of the printed digits is the number |
| Decimal.IntToStringInjective | src/api/dune/endpoints.py:43 | different chain ids print differently |
| Decimal.IntToString | src/api/dune/endpoints.py:43 | `str(i)` of a non-negative integer is a digit string that parses back to `i`; a negative one is `-` followed by the digits of `-i` |
| Decimal.IntToStringHasNoSlash | src/api/dune/endpoints.py:43 | a printed chain id contains no `/`, so it cannot run into the address segment of the URL |
| Frames.EmptyMeansNoCells | src/helpers/dune/dune.py:23 | `df.empty` holds exactly when the table has no cell: every row, if there are any, is empty |
| Frames.Column | src/helpers/dune/dune.py:24 | `df[col]` has one cell per row |
| Frames.WithColumn | src/helpers/dune/dune.py:24 | `df[name] = cells` overwrites an existing column or appends a new one, with row i's cell set to `cells[i]` and every other cell kept |
| Frames.Select | src/helpers/dune/dune.py:118 | `df[cols]` has exactly those columns, and each kept cell is the original cell |
| Frames.RowsWhere | src/helpers/dune/dune.py:43 | boolean-mask filtering keeps only existing rows and never adds any |
| Frames.RowsWhereCount | src/helpers/dune/dune.py:43 | a matching row is kept as often as it occurs; a non-matching row is dropped |
| Frames.RowsWhereAppend | src/helpers/dune/dune.py:43 | filtering preserves the original row order |
| Frames.NumericCells | src/helpers/dune/dune.py:68-72 | the column has a numeric view exactly when no cell is text or missing, and the view is cell by cell |
| Frames.NumericColumn | src/helpers/dune/dune.py:68-72 | when it succeeds, a column's numeric view has one number per row |
| Frames.SumBounds | src/utility/numbers/numbers.py:80 | the sum of values within [lo, hi] is within n * lo and n * hi |
| Frames.MeanBounds | src/utility/numbers/numbers.py:82 | the mean of a non-empty column lies between its minimum and its maximum |
| Frames.Min | src/utility/numbers/numbers.py:84 | the minimum is at most every value and is one of them |
| Frames.Max | src/utility/numbers/numbers.py:86 | the maximum is at least every value and is one of them |
| Frames.CountPresent | src/utility/numbers/numbers.py:88 | `count()` is between 0 and the number of cells |
| Frames.FlagSum | src/helpers/dune/dune.py:68 | the sum of a boolean column is the number of true cells, at most the row count |
| Frames.LookupEntry | src/api/dune/endpoints.py:47 | a JSON object's key looks up its own value |
| Frames.LookupAbsent | src/api/dune/endpoints.py:47 | a key the JSON object lacks looks up as missing |
| Frames.KeyUnion | src/api/dune/endpoints.py:47 | the columns of `pd.DataFrame(records)` are exactly the keys that occur in some record, each once |
| Frames.AddKeysFresh | src/api/dune/endpoints.py:47 | keys new to the columns so far are appended in the order the record lists them |
| Frames.KeyUnionOfOne | src/api/dune/endpoints.py:47 | a single JSON object's columns are its keys in its own order |
| Frames.KeyUnionPrefix | src/api/dune/endpoints.py:47 | the columns grow only at the end as records are added, so each key sits where it first appears |
| Frames.FromRecords | src/api/dune/endpoints.py:47 | one row per record holding that record's values, missing cells for the keys it lacks, and the records' key union as columns |
| Frames.SortDescending | src/api/dune/endpoints.py:51 | the result is sorted from largest to smallest key and is a permutation of the input rows |
| Frames.SortValuesDescending | src/api/dune/endpoints.py:51 | `sort_values(by=col, ascending=False)` keeps the columns, sorts the rows by `col` from largest to smallest, and is a permutation of the rows |
| Frames.Frame.SetColumn | src/helpers/dune/dune.py:24 | the frame's new state is the old table with the column written |
| DuneHelpers.Pow10 | src/helpers/dune/dune.py:24 | `10**decimals` is positive, above 1 for positive and below 1 for negative exponents |
| DuneHelpers.ScaledCells | src/helpers/dune/dune.py:24 | dividing a column by 10^decimals succeeds exactly when no cell is text, and then acts cell by cell |
| DuneHelpers.Normalized | src/helpers/dune/dune.py:9-25 | an empty table or one without the balance column is returned unchanged; otherwise the call fails exactly when some balance is text; on success the output column holds balance / 10^decimals (a NaN balance stays NaN) and each other cell is unchanged |
| DuneHelpers.Pow10Eighteen | src/helpers/dune/dune.py:9 | the default divisor `10**18` is 1000000000000000000 |
| DuneHelpers.NormalizeTokenBalance | src/helpers/dune/dune.py:9-25 | the caller's frame is updated in place to `Normalized` and the same frame is returned; on error the frame is unchanged |
| DuneHelpers.NormalizeIdempotent | src/helpers/dune/dune.py:23-24 | with distinct input and output columns, normalising twice equals normalising once |
| DuneHelpers.NormalizeInPlaceCompounds | src/helpers/dune/dune.py:23-24 | when the output column is the balance column, a second call divides the balances again |
| DuneHelpers.FilterByTokenAddress | src/helpers/dune/dune.py:28-43 | an empty table or one without the token column gives `pd.DataFrame()`; otherwise the columns are kept |
| DuneHelpers.FilterByTokenAddressRows | src/helpers/dune/dune.py:43 | exactly the rows holding the address are kept, with multiplicity and in order |
| DuneHelpers.CalculateHolderMetrics | src/helpers/dune/dune.py:46-74 | an empty table gives the all-zero metrics; otherwise the call fails exactly when a present transfer or balance column is not numeric; the total is the row count; active is 0 without the transfer column; the average is there exactly when `balance_token` is |
| DuneHelpers.ActiveHoldersAreFlagged | src/helpers/dune/dune.py:68 | for a boolean transfer column, the active holders are the true flags and never exceed the total |
| DuneHelpers.AverageBalanceIsMean | src/helpers/dune/dune.py:71-72 | the average balance is the sum of `balance_token` over the row count |
| DuneHelpers.CreateComparisonTable | src/helpers/dune/dune.py:77-95 | the call succeeds exactly when both metrics do, and the COPM error comes first; there are two rows, COPM then COPW, each with that token's total and active holders |
| DuneHelpers.AvailableColumns | src/helpers/dune/dune.py:117 | a column is available exactly when it was requested and the table has it |
| DuneHelpers.AvailableColumnsAppend | src/helpers/dune/dune.py:117 | the comprehension keeps the requested order |
| DuneHelpers.AvailableColumnsAll | src/helpers/dune/dune.py:117 | when every requested column exists, all are kept, in order |
| DuneHelpers.PrepareHolderDisplayColumns | src/helpers/dune/dune.py:98-118 | an empty table, or one with none of the requested (default four) columns, is returned unchanged; otherwise the result has exactly the available columns with the original cells |
| DuneHelpers.SingleHolderNormalizes | src/helpers/dune/dune.py:9-25 | with the default arguments, a holder with a raw balance of 5000000000000000000 gets a `balance_token` of 5 appended |
| DuneHelpers.DefaultDisplayColumns | src/helpers/dune/dune.py:111-118 | without a selection, a table holding the four default columns is cut down to exactly those, in the default order |
| DuneHelpers.SingleHolderMetrics | src/helpers/dune/dune.py:46-74 | that holder's table has one holder, one active holder and an average of 5 |
| Numbers.SafeDivision | src/utility/numbers/numbers.py:41-54 | a zero denominator gives the default; otherwise the result times the denominator is the numerator |
| Numbers.CalculatePercentageChange | src/utility/numbers/numbers.py:23-38 | 0 when the old value is 0; otherwise applying the percentage to the old value gives the new value |
| Numbers.PercentageChangeSign | src/utility/numbers/numbers.py:36-38 | no change is 0%; from a positive old value, growth is positive and shrinkage negative |
| Numbers.Step | src/utility/numbers/numbers.py:78-88 | one turn of the loop raises exactly for a numeric operation over a non-numeric column; otherwise it adds the operation's key if it is recognised and keeps every other entry |
| Numbers.Folded | src/utility/numbers/numbers.py:77-89 | the loop raises only `NotNumeric(column)`, and its dictionary holds only recognised, requested operations |
| Numbers.Aggregated | src/utility/numbers/numbers.py:71-75 | an empty table or a missing column maps every requested operation to 0 |
| Numbers.AggregateMetrics | src/utility/numbers/numbers.py:57-90 | the loop's dictionary is the left fold of the operations, `Aggregated` |
| Numbers.FoldedFailureSticks | src/utility/numbers/numbers.py:78-86 | once an operation raises, the operations after it do not matter |
| Numbers.AggregatedFailure | src/utility/numbers/numbers.py:78-86 | the call raises `NotNumeric` exactly when a numeric operation is requested over a column with text or missing cells |
| Numbers.AggregatedContents | src/utility/numbers/numbers.py:77-90 | on success, the keys are exactly the recognised requested operations, each with its value; unknown names are skipped |
| Numbers.AggregatedValues | src/utility/numbers/numbers.py:79-88 | the sum is the total, the mean is total / count, the minimum and maximum bound every value, and count is the number of present cells |
| Numbers.DefaultOperationsKeys | src/utility/numbers/numbers.py:71-72 | the default list gives exactly sum, mean, min and max |
| DuneConfig.LoadConfig | src/config/dune/index.py:12-24 | the API key and token addresses are the variables or None; the base URLs and chain ids fall back to their defaults |
| DuneConfig.MissingNames | src/config/dune/index.py:35 | a name is listed exactly when its value is None |
| DuneConfig.Join | src/config/dune/index.py:38 | `", ".join(names)` starts with the first name and is as long as the names plus one separator between each pair |
| DuneConfig.ValidateConfig | src/config/dune/index.py:27-38 | validation fails exactly when one of the three required values is None, with the message naming the missing ones joined by ", " |
| DuneConfig.MissingNamesInOrder | src/config/dune/index.py:29-35 | the missing names come in declaration order |
| DuneConfig.SingleMissingNamed | src/config/dune/index.py:37-38 | a single missing variable is named alone |
| DuneConfig.EmptyValuesPass | src/config/dune/index.py:35 | only None counts as missing, so empty strings pass |
| DuneConfig.EmptyEnvironmentDefaults | src/config/dune/index.py:12-24 | with nothing set, every default applies |
| DuneConfig.NothingSetReportsAll | src/config/dune/index.py:27-38 | with nothing set, all three names are reported, in order |
| DuneEndpoints.ReplyBody | src/api/dune/httpClient.py:46-47 | a 4xx or 5xx status raises `HttpError` with that status; any other status yields exactly the response body |
| DuneEndpoints.HttpClient.Get | src/api/dune/httpClient.py:30-47 | the request is recorded, and the reply is the server's answer after the status check |
| DuneEndpoints.FormatChainId | src/api/dune/endpoints.py:43 | a chain id prints as `str(i)` and a missing one as `None`; neither contains `/` |
| DuneEndpoints.FormatAddress | src/api/dune/endpoints.py:43 | an address prints as itself and a missing one as `None` |
| DuneEndpoints.TokenHoldersUrl | src/api/dune/endpoints.py:43 | the URL is the base URL, `/evm/token-holders/`, the chain id, `/` and the address, in that order and position by position |
| DuneEndpoints.SplitAtFirstSlash | src/api/dune/endpoints.py:43 | a slash-free segment followed by `/` splits the URL uniquely |
| DuneEndpoints.TokenHoldersUrlInjective | src/api/dune/endpoints.py:43 | under one base URL, distinct (chain id, address) pairs give distinct URLs |
| DuneEndpoints.BalanceAsFloat | src/api/dune/endpoints.py:50 | `float(v)` succeeds exactly for numbers, booleans and decimal numerals, giving their value; other text raises `ConversionError`, a missing cell `NotNumeric` |
| DuneEndpoints.HolderRecords | src/api/dune/endpoints.py:46 | `data.get("holders", [])` is the list under `holders`, or empty when the key is absent |
| DuneEndpoints.BalancesAsFloat | src/api/dune/endpoints.py:50 | `astype(float)` succeeds exactly when every cell converts, and then converts cell by cell |
| DuneEndpoints.ConvertedHolders | src/api/dune/endpoints.py:46-50 | an empty table is left as is; a table with holders but no balance column raises `KeyError('balance')`; otherwise the call succeeds exactly when every balance converts with `float`, and fails with the first conversion's error |
| DuneEndpoints.HoldersTable | src/api/dune/endpoints.py:46-53 | a reply without holders, or with an empty list, gives the empty table; the call succeeds exactly when the conversion of the holder records does, and fails with its error |
| DuneEndpoints.ConvertedHoldersRows | src/api/dune/endpoints.py:47-50 | one row per holder object, every key present, its value kept, and the balance replaced by its float |
| DuneEndpoints.HoldersTableSorted | src/api/dune/endpoints.py:46-53 | the returned holders are sorted by balance, largest first, and are a permutation of the converted rows, one per holder object; this includes the empty table, which is returned unsorted |
| DuneEndpoints.HoldersBalancesAreNumbers | src/api/dune/endpoints.py:49-51 | a returned table with rows and columns has a balance column, and every balance in it is a number |
| DuneEndpoints.TextBalanceReadsBack | src/api/dune/endpoints.py:50 | a balance sent as a decimal string converts to that integer |
| DuneEndpoints.Fetched | src/api/dune/endpoints.py:43-53 | a 4xx or 5xx reply raises `HttpError`; any other reply gives the holders table of its body |
| DuneEndpoints.EmptyReplyHasZeroMetrics | src/api/dune/endpoints.py:46-53 | `{"holders": []}` gives the empty table, whose metrics are all zero |
| DuneEndpoints.DuneAPI.constructor | src/api/dune/endpoints.py:21-30 | the wrapper keeps its client and takes both base URLs from the configuration |
| DuneEndpoints.DuneAPI.GetTokenHolders | src/api/dune/endpoints.py:32-53 | exactly one request is made, to the token-holders URL with the SIM headers, and the result is the server's reply converted to a sorted table |
| DuneEndpoints.DuneAPI.GetCopmHolders | src/api/dune/endpoints.py:56-63 | the request uses the Polygon chain id and the COPM address |
| DuneEndpoints.DuneAPI.GetCopwHolders | src/api/dune/endpoints.py:65-72 | the request uses the Ethereum chain id and the COPW address |

## Left out

- Floating point is modelled as exact `real` arithmetic: no rounding, overflow or infinities. NaN appears only as the `Missing` cell.
- Numbers.CalculatePercentageChange: the `round(..., decimals)` step is not modelled, so the result is the exact percentage.
- pandas' NaN skipping in `sum`, `mean`, `min` and `max` is not modelled. A column with a missing cell makes these raise `NotNumeric` instead of being skipped. The same applies to sums, minima and maxima over text columns, which pandas concatenates or compares as strings.
- DuneEndpoints.BalanceAsFloat: a holder object without a `balance` key converts to NaN in pandas; the model reports `NotNumeric`. A text balance must be a plain decimal numeral; signs, decimal points and exponents are reported as `ConversionError`.
- DuneHelpers.FilterByTokenAddress: the address is compared with text cells only; a number or flag cell never matches.
- `format_number_with_commas` is not modelled: it is locale-free string formatting the other operations do not use.
- Sort stability is not stated: `sort_values` uses quicksort by default. The model states sortedness and a permutation, not the order among equal balances.
- The pandas index and `reset_index(drop=True)` are not modelled. A table is its columns and rows in order.
- Duplicate column labels are modelled only where `prepare_holder_display_columns` is asked for the same column twice. The selection then lists the label twice, and both copies read the row's single entry, as pandas does. Tables built from records (`Frames.KeyUnion`) have distinct labels, and `Frames.WithColumn` adds a label only when it is absent.
- Environment variables and `.env` loading are inputs. `int()` on the chain-id variables is taken as already done, so a non-numeric value, which raises at import, is not modelled.
- DuneEndpoints.DuneAPI.constructor: the `client or DuneHttpClient()` default is not modelled. The caller passes the client and the configuration values.
- The HTTP headers, the API key and `post` are not modelled. A request records only its URL and whether the SIM headers were chosen.
- The network, JSON decoding and response bodies other than lists of flat objects are not modelled. The server function gives the status and the decoded body.
- `main.py`, `src/utility/graphs/graphs.py` and `src/services/dashboard.py` are callers and plotting code outside this model. `dashboard.py` line 51 passes a `decimals=` keyword to `prepare_holder_display_columns`, which does not accept one. That call would raise `TypeError`; the model follows the function's own signature.
