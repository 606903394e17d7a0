/** Format detection (`convert_string_to_df`) and re-encoding
    (`convert_df_to_formatted_string`). The pandas and json library calls are not
    modelled: they are the fields of a `Pandas` record, and every statement here holds
    for whatever those calls do. */
module Formats {
  import opened Wrappers
  import opened Values
  import opened Frames

  const CSV := "csv"
  const JSON := "json"
  const PARQUET := "parquet"

  const STRING_NOT_CSV_OR_JSON := "Failed to interpret string as json or csv"
  const BYTES_NOT_PARQUET := "Failed to interpret bytes as parquet"
  const NOT_STRING_OR_BYTES := "expected string or bytes type for formatted_string"

  /** The library calls the core makes; each returns a table (or text, or bytes) or
      raises. */
  datatype Pandas = Pandas(
    readCsv: string -> Result<Table, Exception>,         // pd.read_csv(StringIO(s), sep=",", header=0)
    readJson: string -> Result<Table, Exception>,        // pd.DataFrame.from_dict(json.loads(s))
    readParquet: seq<Byte> -> Result<Table, Exception>,  // pd.read_parquet(BytesIO(b))
    toCsv: Table -> Result<string, Exception>,           // df.to_csv()
    toJson: Table -> Result<string, Exception>,          // json.dumps(df.to_dict())
    toParquet: Table -> Result<seq<Byte>, Exception>)    // df.to_parquet()

  /** The dictionary `{"df": ..., "format": ...}` the decoder returns. */
  datatype Decoded = Decoded(df: Table, format: string)

  /** `convert_string_to_df`: text is read as CSV, and as JSON only when the CSV reading
      succeeded but lacks a requested field; bytes are read as parquet only; anything
      else is a `TypeError`. A reader that raises makes the whole call raise. */
  function ConvertStringToDf(input: Payload, fields: seq<string>, pd: Pandas): (r: Result<Decoded, Exception>)
    ensures r.Success? ==> Covers(r.value.df, fields)
    ensures r.Success? && input.Str? ==> r.value.format == CSV || r.value.format == JSON
    ensures r.Success? && input.Bytes? ==> r.value.format == PARQUET
    ensures input.OtherValue? ==> r == Failure(TypeError(NOT_STRING_OR_BYTES))
  {
    match input
    case Str(s) =>
      (match pd.readCsv(s)
       case Failure(e) => Failure(e)
       case Success(csv) =>
         if Covers(csv, fields) then Success(Decoded(csv, CSV))
         else
           match pd.readJson(s)
           case Failure(e) => Failure(e)
           case Success(json) =>
             if Covers(json, fields) then Success(Decoded(json, JSON))
             else Failure(TypeError(STRING_NOT_CSV_OR_JSON)))
    case Bytes(b) =>
      (match pd.readParquet(b)
       case Failure(e) => Failure(e)
       case Success(parquet) =>
         if Covers(parquet, fields) then Success(Decoded(parquet, PARQUET))
         else Failure(TypeError(BYTES_NOT_PARQUET)))
    case OtherValue => Failure(TypeError(NOT_STRING_OR_BYTES))
  }

  /** Text whose CSV reading covers the fields is CSV, whatever JSON would make of it. */
  lemma CsvWins(s: string, fields: seq<string>, pd: Pandas)
    requires pd.readCsv(s).Success? && Covers(pd.readCsv(s).value, fields)
    ensures ConvertStringToDf(Str(s), fields, pd) == Success(Decoded(pd.readCsv(s).value, CSV))
  {
  }

  /** A CSV reader that raises is not followed by a JSON attempt: its exception is the
      result. */
  lemma CsvErrorPropagates(s: string, fields: seq<string>, pd: Pandas)
    requires pd.readCsv(s).Failure?
    ensures ConvertStringToDf(Str(s), fields, pd) == Failure(pd.readCsv(s).error)
  {
  }

  /** JSON is consulted only when the CSV reading succeeded and lacks a field: otherwise
      replacing the JSON reader changes nothing. */
  lemma JsonOnlyAfterIncompleteCsv(s: string, fields: seq<string>, pd: Pandas, readJson: string -> Result<Table, Exception>)
    requires pd.readCsv(s).Failure? || Covers(pd.readCsv(s).value, fields)
    ensures ConvertStringToDf(Str(s), fields, pd) == ConvertStringToDf(Str(s), fields, pd.(readJson := readJson))
  {
  }

  /** The outcome of decoding text whose CSV reading succeeded but lacks a field. */
  lemma JsonFallback(s: string, fields: seq<string>, pd: Pandas)
    requires pd.readCsv(s).Success? && !Covers(pd.readCsv(s).value, fields)
    ensures pd.readJson(s).Failure? ==> ConvertStringToDf(Str(s), fields, pd) == Failure(pd.readJson(s).error)
    ensures pd.readJson(s).Success? && Covers(pd.readJson(s).value, fields) ==>
              ConvertStringToDf(Str(s), fields, pd) == Success(Decoded(pd.readJson(s).value, JSON))
    ensures pd.readJson(s).Success? && !Covers(pd.readJson(s).value, fields) ==>
              ConvertStringToDf(Str(s), fields, pd) == Failure(TypeError(STRING_NOT_CSV_OR_JSON))
  {
  }

  /** Bytes are read as parquet and nothing else: the text readers play no part, a
      parquet reading that lacks a field is a `TypeError`, and one that covers them is
      the result. */
  lemma BytesOnlyParquet(b: seq<Byte>, fields: seq<string>, pd: Pandas, other: Pandas)
    requires other.readParquet == pd.readParquet
    ensures ConvertStringToDf(Bytes(b), fields, pd) == ConvertStringToDf(Bytes(b), fields, other)
    ensures pd.readParquet(b).Success? ==>
              ConvertStringToDf(Bytes(b), fields, pd) ==
                if Covers(pd.readParquet(b).value, fields) then Success(Decoded(pd.readParquet(b).value, PARQUET))
                else Failure(TypeError(BYTES_NOT_PARQUET))
  {
  }

  /** `convert_df_to_formatted_string`: dispatches on the format tag; a tag other than
      the three known ones falls off the end of the function and returns `None`. An
      exception from a serialiser is re-raised. */
  function ConvertDfToFormattedString(df: Table, format: string, pd: Pandas): (r: Result<Option<Payload>, Exception>)
    ensures r == Success(None) <==> format !in {CSV, JSON, PARQUET}
    ensures r.Success? && r.value.Some? && format != PARQUET ==> r.value.value.Str?
    ensures r.Success? && r.value.Some? && format == PARQUET ==> r.value.value.Bytes?
  {
    if format == CSV then
      match pd.toCsv(df)
      case Success(s) => Success(Some(Str(s)))
      case Failure(e) => Failure(e)
    else if format == JSON then
      match pd.toJson(df)
      case Success(s) => Success(Some(Str(s)))
      case Failure(e) => Failure(e)
    else if format == PARQUET then
      match pd.toParquet(df)
      case Success(b) => Success(Some(Bytes(b)))
      case Failure(e) => Failure(e)
    else
      Success(None)
  }

  /** The serialiser for a known tag is the only one used: its failure is the result's
      failure, its output the result's payload. */
  lemma EncoderUsesTaggedSerialiser(df: Table, pd: Pandas)
    ensures ConvertDfToFormattedString(df, CSV, pd).Failure? <==> pd.toCsv(df).Failure?
    ensures ConvertDfToFormattedString(df, JSON, pd).Failure? <==> pd.toJson(df).Failure?
    ensures ConvertDfToFormattedString(df, PARQUET, pd).Failure? <==> pd.toParquet(df).Failure?
    ensures pd.toCsv(df).Success? ==> ConvertDfToFormattedString(df, CSV, pd) == Success(Some(Str(pd.toCsv(df).value)))
    ensures pd.toJson(df).Success? ==> ConvertDfToFormattedString(df, JSON, pd) == Success(Some(Str(pd.toJson(df).value)))
    ensures pd.toParquet(df).Success? ==>
              ConvertDfToFormattedString(df, PARQUET, pd) == Success(Some(Bytes(pd.toParquet(df).value)))
  {
  }

  /** When the CSV writer and reader invert each other on `t`, CSV output decodes back to
      `t`, tagged "csv". */
  lemma CsvRoundTrip(t: Table, fields: seq<string>, pd: Pandas)
    requires Covers(t, fields)
    requires pd.toCsv(t).Success? && pd.readCsv(pd.toCsv(t).value) == Success(t)
    ensures ConvertDfToFormattedString(t, CSV, pd).Success?
    ensures ConvertStringToDf(ConvertDfToFormattedString(t, CSV, pd).value.value, fields, pd) == Success(Decoded(t, CSV))
  {
  }

  /** Parquet output decodes back to `t`, tagged "parquet", when the parquet writer and
      reader invert each other on `t`. */
  lemma ParquetRoundTrip(t: Table, fields: seq<string>, pd: Pandas)
    requires Covers(t, fields)
    requires pd.toParquet(t).Success? && pd.readParquet(pd.toParquet(t).value) == Success(t)
    ensures ConvertDfToFormattedString(t, PARQUET, pd).Success?
    ensures ConvertStringToDf(ConvertDfToFormattedString(t, PARQUET, pd).value.value, fields, pd) == Success(Decoded(t, PARQUET))
  {
  }

  /** JSON output decodes back to `t`, tagged "json", exactly when the CSV reader accepts
      the JSON text but the columns it finds lack a field (given that the JSON writer and
      reader invert each other on `t`). In particular JSON text that the CSV reader rejects
      never round-trips. */
  lemma JsonRoundTrip(t: Table, fields: seq<string>, pd: Pandas)
    requires Covers(t, fields)
    requires pd.toJson(t).Success? && pd.readJson(pd.toJson(t).value) == Success(t)
    ensures ConvertDfToFormattedString(t, JSON, pd).Success?
    ensures var s := pd.toJson(t).value;
            ConvertStringToDf(ConvertDfToFormattedString(t, JSON, pd).value.value, fields, pd) == Success(Decoded(t, JSON))
            <==> pd.readCsv(s).Success? && !Covers(pd.readCsv(s).value, fields)
  {
  }
}
