/** The `/latest` handler (app.py, lines 19-43): build the query, run it in the
    configured organisation, flatten the answer.

    The store is a parameter: a function from organisation and query text to
    either the result tables or the error the client raised. The handler does
    not catch that error (app.py:30 has no `try`), so it leaves the handler
    unchanged and the flattener never runs. */
module Handler {
  import opened Wrappers
  import opened FluxQuery
  import opened Flattener

  /** The configuration the handler reads: organisation, bucket, range start. */
  datatype Config = Config(org: string, bucket: string, rangeStart: string)

  /** The values used when the environment sets none (app.py:11-13). */
  const DefaultConfig := Config("dhts", "airlytic", "0")

  /** One request to `/latest`: the response body before JSON encoding, or
      the store's error passed through. `jsonify` writes each entry `e` of a
      successful response as the object `ToJsonObject(e)`. */
  method GetAqiData<V, E>(config: Config, query: (string, string) -> Result<seq<FluxTable<V>>, E>)
    returns (response: Result<seq<AqiRecord<V>>, E>)
    ensures var answer := query(config.org, BuildQuery(config.bucket, config.rangeStart));
      && (answer.Failure? ==> response == Failure(answer.error))
      && (answer.Success? ==> response == Success(Flatten(answer.value)))
  {
    var q := BuildQuery(config.bucket, config.rangeStart);
    var result := query(config.org, q);
    if result.Failure? {
      response := Failure(result.error);
    } else {
      var dataList := FlattenResult(result.value);
      response := Success(dataList);
    }
  }

  /** Every object in the body `/latest` sends back has exactly the three keys
      `latitude`, `longitude` and `AQI`, whatever columns the store returned. */
  lemma ResponseObjectsHaveThreeKeys<V>(tables: seq<FluxTable<V>>, k: nat)
    requires k < |Flatten(tables)|
    ensures ToJsonObject(Flatten(tables)[k]).Keys == {LatitudeKey, LongitudeKey, AqiKey}
    ensures "_time" !in ToJsonObject(Flatten(tables)[k])
  {
  }

  /** With the default configuration the query selects bucket `airlytic`
      from time 0, and both values read back from the query text. */
  lemma DefaultQuery()
    ensures ParseQuery(BuildQuery(DefaultConfig.bucket, DefaultConfig.rangeStart)) == Some(("airlytic", "0"))
  {
    assert '"' !in DefaultConfig.bucket;
    ParseBuildQuery(DefaultConfig.bucket, DefaultConfig.rangeStart);
  }
}
