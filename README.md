# Crypto candle pipeline: validator, scaler, windows, request URL

A Dafny model of the algorithmic core of a Streamlit app (`main.py`). The app fetches
price candles for a crypto symbol from CryptoCompare, validates them, adds technical
indicators, and can prepare windows for an LSTM forecaster. The model covers five parts:

- **Validator** (`validator.dfy`). This is `check_data_errors`. A DataFrame is modelled
  as `Frame(width, rows)`, and each cell is `Option<real>`, where `None` is a null cell.
  The guards run in a fixed order: empty table, then any null cell, then any row repeated
  in full. The result is one of four answers, each with its exact message string.
  "Empty" is pandas' `DataFrame.empty`, which holds when either axis has length zero.
  "Duplicate" is `DataFrame.duplicated()` with `keep='first'`: a whole row equal to an
  earlier row in every column, timestamp included.
- **Scaler** (`scaling.dfy`). This is `MinMaxScaler(feature_range=(0, 1))` fitted over the
  whole closing-price series, on exact reals. It follows scikit-learn: a zero data range
  is replaced by 1. So a constant series scales to 0, and `inverse_transform` remains an
  exact inverse.
- **Window builder** (`windows.dfy`). This is the loop of `build_lstm_model`, modelled as a
  method with a `while` loop. For each `i` from 60 up to `len(scaled)`, it appends
  `scaled[i-60:i]` to `X` and `scaled[i]` to `y`. `PrepareTrainingData` combines fit,
  transform and the loop, together with the two ways the code fails before the network is
  built. The scaler is fitted over the entire series, targets included, exactly as in the
  code. `LeakageWitness` shows what this hides: a scaler fitted on the inputs alone could
  place a target above 1.
- **Request URL** (`crypto_compare.dfy`). This covers the `INTERVALS` table and the
  f-string URL of `fetch_crypto_data`. `1m`, `5m` and `15m` all select `histominute` with
  `aggregate=1`, so they produce the same request. A `5m` or `15m` choice therefore
  fetches one-minute candles. To state what the URL carries, the module also has a
  simplified query reader: the path up to the first `?`, then `&`-separated `key=value`
  pairs.
- **Gate** (`pipeline.dfy`). This is the step shared by the fetch button and each
  auto-update pass. The validator's string is compared with `"No errors found"`. Only on a
  match are indicators computed and the current price reported. The current price is
  `df['close'].iloc[-1]`, the close cell of the last row. The indicator library is passed
  in as a function parameter.

Facts about the code that the model keeps:

- Duplicates are whole rows compared across every column, not repeated timestamps.
- There is no minimum-length check.
- One interval is fetched per run.
- The failure for at most 60 prices comes from the reshape at main.py:87 raising, not
  from an explicit guard.

## Model

| member | source | states |
|---|---|---|
| `Validator.IsEmpty` | main.py:46 | `df.empty` holds exactly when the table holds no cell: the column count times the row count is zero. |
| `Validator.CheckDataErrors` | main.py:45-55 | Empty exactly when the table has no rows or no columns. Null values exactly when it is not empty and some cell is null. Duplicates exactly when it is not empty, has no null, and some row equals an earlier row. No errors in every other case. So emptiness hides nulls and nulls hide duplicates. |
| `Validator.MessageInjective` | main.py:45-55 | The four returned strings are pairwise different, so comparing strings identifies the answer. |
| `Validator.AnyNull` | main.py:49 | `isnull().values.any()` is true exactly when some cell of some row is null. |
| `Validator.Duplicated` | main.py:52 | Gives one flag per row, set exactly when an earlier row equals that row in every column (keep='first'). |
| `Validator.AnyDuplicated` | main.py:52 | `duplicated().any()` is true exactly when two distinct rows are equal. |
| `Validator.SingleRowPasses` | main.py:55 | A one-row, null-free, non-empty table passes: there is no minimum length. |
| `Validator.SharedTimestampIsNotDuplicate` | main.py:52 | Two candles that share a timestamp but differ in close are not duplicates. |
| `Validator.RepeatedRowIsDuplicate` | main.py:52-54 | A non-empty, null-free table with a row repeated anywhere later is reported as duplicates. |
| `Scaling.Fit` | main.py:80-81 | The fitted minimum and maximum are elements of the series and bound every element. |
| `Scaling.Transform` | main.py:81 | The scaled value is the one that the inverse linear map (times the range, plus the minimum) sends back to the price. `InverseAfterTransform` and `TransformStrictlyMonotone` carry its properties. |
| `Scaling.InverseTransform` | main.py:80-81 | The price it gives is the one that `transform` maps back to the scaled value. `TransformAfterInverse` completes the round trip. |
| `Scaling.FitTransform` | main.py:81 | Returns one scaled value per price, each the transform of that price under the fitted scaler, and each in [0, 1]. |
| `Scaling.InverseAfterTransform` | main.py:80-81 | `inverse_transform(transform(x)) == x` for every real. |
| `Scaling.TransformAfterInverse` | main.py:80-81 | `transform(inverse_transform(v)) == v` for every real. |
| `Scaling.TransformStrictlyMonotone` | main.py:80-81 | `x < y` exactly when `transform(x) < transform(y)`. |
| `Scaling.FittedSeriesRecovered` | main.py:80-81 | Every price of the fitted series is recovered from its scaled value. |
| `Scaling.ExtremesScaleToBounds` | main.py:80-81 | For a non-constant series, the minimum scales to 0 and the maximum to 1. |
| `Scaling.ConstantSeriesScalesToZero` | main.py:80-81 | The fitted range is zero exactly for a constant series, and such a series scales to 0 everywhere. |
| `Windows.WindowCount` | main.py:83 | It equals the number of iterations of `range(60, N)`. |
| `Windows.BuildWindows` | main.py:82-85 | Yields max(0, N-60) inputs and targets. Input k is `scaled[k..k+60)` and has length 60. Target k is `scaled[k+60]`, and the targets are exactly `scaled[60..]`. Window k+1 is window k without its first price and with target k appended. |
| `Windows.PrepareTrainingData` | main.py:79-87 | Fails for an empty series and for 1-60 prices, and succeeds exactly for more than 60. Otherwise the scaler is fitted over all prices. There are N-60 windows of the fitted-scaled prices, all values in [0, 1]. Each target inverts to the price that follows its window. |
| `Windows.TargetsInsideFittedRange` | main.py:80-85 | Every target price lies within the fitted bounds, so its scaled value is in [0, 1]. |
| `Windows.LeakageWitness` | main.py:80-85 | For 0, 1, ..., 60: a scaler fitted on the first window would send the target to 60/59 > 1. The whole-series scaler sends it to 1. |
| `CryptoCompare.Endpoint` | main.py:18-24 | `1m`, `5m`, `15m` map to histominute, `1h` to histohour, `1d` to histoday. Every other interval is a lookup failure. |
| `CryptoCompare.RequestUrl` | main.py:29 | A URL exists exactly for the five table intervals, and it starts with the base URL followed by the interval's endpoint. `RequestUrlParameters` states its query. |
| `CryptoCompare.MinuteIntervalsShareRequest` | main.py:18-29 | `1m`, `5m` and `15m` produce the identical request URL. |
| `CryptoCompare.RequestUrlParameters` | main.py:29 | Read back by the simplified query reader, the URL has the interval's endpoint as its path and the query `fsym`=symbol, `tsym=USDT`, `limit=60`, `aggregate=1`, `e=CCCAGG`, `api_key`=key, in that order, when neither symbol nor key contains '&' or '#'. |
| `Pipeline.FetchedFrame` | main.py:39-42 | A failed request yields an empty table. A received table is passed on unchanged. |
| `Pipeline.RunCycle` | main.py:109-113 | A data error occurs exactly when the validator does not answer "No errors found", and carries its message. Otherwise the indicator table is published with its last close as current price, or the pass fails when there is no last row. |
| `Pipeline.RequestFailureReportsEmpty` | main.py:39-48 | A failed request ends as the error "Dataframe is empty". |
| `Pipeline.IndicatorsOnlyAfterValidation` | main.py:109-111 | When validation fails, the outcome does not depend on the indicator step. |
| `Pipeline.PublishedPriceIsLastClose` | main.py:111-113 | If the indicator step keeps rows and only appends columns, a validated table is published with its own last close as current price, and that price is not null. |

## Left out

- Streamlit UI (title, inputs, buttons, placeholders, messages): presentation only.
- The HTTP request and the JSON/pandas reshaping in `fetch_crypto_data` (main.py:30-38): network I/O. Only the URL and the fallback to an empty table on a `RequestException` are modelled. Neither an unknown interval (a `KeyError` at main.py:29) nor a response without `'Data'` is caught by that handler. The model shows the first as `RequestUrl` returning `None` and does not model exception propagation.
- `calculate_technical_indicators` (`ta.utils.dropna`, `add_all_ta_features`): a foreign library that attaches an open-ended set of columns. The gate takes it as a function parameter. Its row dropping is only covered through the `AppendsColumns` assumption of `PublishedPriceIsLastClose`.
- The Plotly candlestick chart: rendering.
- LSTM construction, compilation and training (main.py:89-99): a foreign library with floating-point training. The model stops at the training inputs and targets, before the reshape to shape (count, 60, 1).
- The `auto_update` loop with `time.sleep` (main.py:128-144): an endless wall-clock loop. Each of its passes is the same step as `RunCycle`.
- CSV export and logging: file I/O.
- Floating point: the scaler is modelled on exact reals, so scikit-learn's rounding is not captured.
- URL encoding: the f-string escapes nothing. `RequestUrlParameters` therefore assumes that symbol and key contain no '&' and no '#'. An HTTP client sends nothing from a '#' on, so a '#' in the symbol would keep every later parameter from the server. The simplified query reader neither cuts at '#' nor percent-decodes, and so it does not capture how a server reads such a URL.
- Column names: `CurrentPrice` reads the close at position 4 of the indicator step's output, where main.py:112-113 reads the column named `close` through `current_price`. The published table also lacks the `current_price` column that main.py:112 adds.
