/**
 * The fetch-validate-publish step shared by the button handler (main.py:108-113)
 * and by each pass of `auto_update` (main.py:134-139): the frame returned by the
 * fetch is checked; only when the check's message is "No errors found" are the
 * indicators computed and the current price, the close of the last row, reported.
 * The indicator library is not part of this model and enters as a parameter.
 */
module Pipeline {
  import opened Wrappers
  import opened Validator

  /** Column layout kept by the fetch (main.py:36): timestamp, open, high, low, close, volume. */
  const CandleColumns: nat := 6
  const CloseColumn: nat := 4

  /** How the HTTP request ended: a table of candles, or a `RequestException`. */
  datatype Response = Received(frame: Frame) | RequestFailed

  /** `fetch_crypto_data` answers a failed request with an empty DataFrame (main.py:39-42). */
  function FetchedFrame(r: Response): (f: Frame)
    ensures r.RequestFailed? ==> IsEmpty(f)
    ensures r.Received? ==> f == r.frame
  {
    match r
    case Received(frame) => frame
    case RequestFailed => Frame(0, [])
  }

  /** `df["close"].iloc[-1]`: the close cell of the last row, if the table has one. */
  function CurrentPrice(t: Frame): (p: Option<Cell>)
    ensures p.Some? <==> |t.rows| > 0 && |t.rows[|t.rows| - 1]| > CloseColumn
    ensures p.Some? ==> p.value == t.rows[|t.rows| - 1][CloseColumn]
  {
    if |t.rows| > 0 && |t.rows[|t.rows| - 1]| > CloseColumn then Some(t.rows[|t.rows| - 1][CloseColumn])
    else None
  }

  /** What one pass shows: the enriched table and its current price, or the validator's message. */
  datatype Outcome =
    | Published(table: Frame, currentPrice: Cell)
    | DataError(message: string)
    | NoCurrentPrice   // `iloc[-1]` on a table left without rows raises

  /**
   * One pass: the string returned by the validator is compared with "No errors found";
   * on a match the indicators are computed and the last close is reported,
   * otherwise the message is shown and the indicators are never computed.
   */
  function RunCycle(fetched: Frame, indicators: Frame -> Frame): (o: Outcome)
    ensures o.DataError? <==> CheckDataErrors(fetched) != NoErrorsFound
    ensures o.DataError? ==> o.message == Message(CheckDataErrors(fetched))
    ensures o.Published? ==> o.table == indicators(fetched) && CurrentPrice(o.table) == Some(o.currentPrice)
    ensures o.NoCurrentPrice? <==> CheckDataErrors(fetched) == NoErrorsFound && CurrentPrice(indicators(fetched)).None?
  {
    var error := Message(CheckDataErrors(fetched));
    MessageInjective(CheckDataErrors(fetched), NoErrorsFound);
    if error == "No errors found" then
      var df := indicators(fetched);
      match CurrentPrice(df)
      case None => NoCurrentPrice
      case Some(price) => Published(df, price)
    else DataError(error)
  }

  /** A failed request is reported as an empty table, before anything else is looked at. */
  lemma RequestFailureReportsEmpty(indicators: Frame -> Frame)
    ensures RunCycle(FetchedFrame(RequestFailed), indicators) == DataError("Dataframe is empty")
  {
  }

  /** Where the validator objects, the indicator step has no influence on the outcome. */
  lemma IndicatorsOnlyAfterValidation(fetched: Frame, g1: Frame -> Frame, g2: Frame -> Frame)
    requires CheckDataErrors(fetched) != NoErrorsFound
    ensures RunCycle(fetched, g1) == RunCycle(fetched, g2)
  {
  }

  /** An indicator step that keeps every row and only appends columns to it. */
  ghost predicate AppendsColumns(fetched: Frame, enriched: Frame)
  {
    |enriched.rows| == |fetched.rows| &&
    forall i :: 0 <= i < |fetched.rows| ==> fetched.rows[i] <= enriched.rows[i]
  }

  /**
   * With such an indicator step, a validated candle table is published with the
   * close of its own last candle as the current price, and that price is never null.
   */
  lemma PublishedPriceIsLastClose(fetched: Frame, indicators: Frame -> Frame)
    requires CheckDataErrors(fetched) == NoErrorsFound
    requires AppendsColumns(fetched, indicators(fetched))
    requires |fetched.rows| > 0 && |fetched.rows[|fetched.rows| - 1]| > CloseColumn
    ensures var last := fetched.rows[|fetched.rows| - 1];
            RunCycle(fetched, indicators) == Published(indicators(fetched), last[CloseColumn]) &&
            last[CloseColumn].Some?
  {
    var n := |fetched.rows| - 1;
    var last := fetched.rows[n];
    var enriched := indicators(fetched);
    assert last <= enriched.rows[n];
    assert enriched.rows[n][CloseColumn] == last[CloseColumn];
  }
}
