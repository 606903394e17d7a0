/** `lambda_handler`: locate the object, fetch it, decode it, mask the requested fields
    and re-encode it in the format the decoder found. */
module Handler {
  import opened Wrappers
  import opened Values
  import opened Paths
  import opened Frames
  import opened Formats

  /** Decode, mask and encode a fetched value, the encoder receiving the decoder's tag. */
  function Obfuscate(file: Payload, fields: seq<string>, pd: Pandas): (r: Result<Option<Payload>, Exception>)
    ensures ConvertStringToDf(file, fields, pd).Failure? ==> r == Failure(ConvertStringToDf(file, fields, pd).error)
    ensures r.Success? ==> r.value.Some? && (r.value.value.Bytes? <==> file.Bytes?)
  {
    match ConvertStringToDf(file, fields, pd)
    case Failure(e) => Failure(e)
    case Success(d) => ConvertDfToFormattedString(Mask(d.df, fields), d.format, pd)
  }

  /** `lambda_handler`. `getObject` stands for `get_file_from_bucket` with its client,
      which decodes the object's body as UTF-8 and hands it to `json.loads`, so the value it
      returns is never `bytes`. The event dictionary is replaced by its two entries, the
      path and the fields. */
  method LambdaHandler(s3Path: string, fields: seq<string>,
                       getObject: (string, string) -> Result<JsonLoaded, Exception>, pd: Pandas)
    returns (r: Result<Option<Payload>, Exception>)
    ensures SplitLocation(s3Path).Failure? ==> r == Failure(SplitLocation(s3Path).error)
    ensures SplitLocation(s3Path).Success? ==>
              var loc := SplitLocation(s3Path).value;
              r == match getObject(loc.bucket, loc.key)
                   case Failure(e) => Failure(e)
                   case Success(file) => Obfuscate(file, fields, pd)
    ensures r.Success? ==> r.value.Some? && r.value.value.Str?
  {
    var pathElements := GetBucketAndKeyStrings(s3Path);
    if pathElements.Failure? {
      return Failure(pathElements.error);
    }
    var fetched := getObject(pathElements.value.bucket, pathElements.value.key);
    if fetched.Failure? {
      return Failure(fetched.error);
    }
    var dfDict := ConvertStringToDf(fetched.value, fields, pd);
    if dfDict.Failure? {
      return Failure(dfDict.error);
    }
    var df := new DataFrame(dfDict.value.df);
    var foundFormat := dfDict.value.format;
    var newDf := ProduceObfuscatedData(df, fields);
    r := ConvertDfToFormattedString(newDf.Value(), foundFormat, pd);
  }

  /** The encoder is handed the masked table and exactly the tag the decoder found, so
      the output is never `None`, text input gives text output and bytes give bytes. */
  lemma ObfuscateKeepsFormat(file: Payload, fields: seq<string>, pd: Pandas)
    requires ConvertStringToDf(file, fields, pd).Success?
    ensures var d := ConvertStringToDf(file, fields, pd).value;
            Covers(d.df, fields) &&
            Obfuscate(file, fields, pd) == ConvertDfToFormattedString(Mask(d.df, fields), d.format, pd)
    ensures Obfuscate(file, fields, pd).Success? ==>
              && Obfuscate(file, fields, pd).value.Some?
              && (file.Str? <==> Obfuscate(file, fields, pd).value.value.Str?)
              && (file.Bytes? <==> Obfuscate(file, fields, pd).value.value.Bytes?)
  {
  }

  /** A value returned by `json.loads` never reaches the parquet branch: the parquet reader
      and writer play no part, a successful result is text, and a decoded JSON object
      (any value other than a `str`) raises `TypeError`. */
  lemma FetchedValueNeverParquet(file: JsonLoaded, fields: seq<string>, pd: Pandas,
                                 readParquet: seq<Byte> -> Result<Table, Exception>,
                                 toParquet: Table -> Result<seq<Byte>, Exception>)
    ensures Obfuscate(file, fields, pd) == Obfuscate(file, fields, pd.(readParquet := readParquet, toParquet := toParquet))
    ensures Obfuscate(file, fields, pd).Success? ==> Obfuscate(file, fields, pd).value.value.Str?
    ensures file.OtherValue? ==> Obfuscate(file, fields, pd) == Failure(TypeError(NOT_STRING_OR_BYTES))
  {
  }

  /** A failed decoding is the handler's failure: nothing is encoded. */
  lemma ObfuscateStopsOnDecodeError(file: Payload, fields: seq<string>, pd: Pandas)
    requires ConvertStringToDf(file, fields, pd).Failure?
    ensures Obfuscate(file, fields, pd) == Failure(ConvertStringToDf(file, fields, pd).error)
  {
  }

  /** The serialiser and reader of `format` invert each other on `t`, and (for JSON) the
      CSV reader accepts the JSON text without finding all the fields, which is what lets
      the decoder reach its JSON branch. */
  predicate RoundTrips(pd: Pandas, format: string, t: Table, fields: seq<string>)
  {
    || (format == CSV && pd.toCsv(t).Success? && pd.readCsv(pd.toCsv(t).value) == Success(t))
    || (format == PARQUET && pd.toParquet(t).Success? && pd.readParquet(pd.toParquet(t).value) == Success(t))
    || (&& format == JSON && pd.toJson(t).Success? && pd.readJson(pd.toJson(t).value) == Success(t)
        && pd.readCsv(pd.toJson(t).value).Success? && !Covers(pd.readCsv(pd.toJson(t).value).value, fields))
  }

  /** Decoding the handler's output with the same fields gives back the masked table in
      the original format, whenever that format's reader and writer invert each other; in
      it every cell of every requested column is the sentinel. */
  lemma OutputDecodesToMaskedTable(file: Payload, fields: seq<string>, pd: Pandas)
    requires ConvertStringToDf(file, fields, pd).Success?
    requires var d := ConvertStringToDf(file, fields, pd).value;
             RoundTrips(pd, d.format, Mask(d.df, fields), fields)
    ensures Obfuscate(file, fields, pd).Success? && Obfuscate(file, fields, pd).value.Some?
    ensures var d := ConvertStringToDf(file, fields, pd).value;
            var out := ConvertStringToDf(Obfuscate(file, fields, pd).value.value, fields, pd);
            && out == Success(Decoded(Mask(d.df, fields), d.format))
            && forall i, k ::
                 (0 <= i < |out.value.df.columns| && out.value.df.columns[i].name in fields && 0 <= k < out.value.df.rows)
                 ==> out.value.df.columns[i].cells[k] == SENTINEL
  {
  }
}
