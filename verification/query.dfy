/** The Flux query that the `/latest` handler sends to InfluxDB (app.py, lines 21-28).

    The handler builds the query with one f-string: a fixed pipeline of six stages
    in which the configured bucket name and range start are spliced in verbatim.
    `BuildQuery` is that f-string; the lemmas below say what the text contains,
    in which order, and how far the two spliced values can be read back out of it. */
module FluxQuery {
  import opened Wrappers
  import opened Text

  // The whitespace of the triple-quoted template: every line starts with four spaces.
  const Indent := "\n    "
  const Pipe := "\n    |> "

  /** The three fields the endpoint reports, as they are named in the store. */
  const LatitudeField := "Latitude"
  const LongitudeField := "Longitude"
  const AqiField := "AQI"

  /** `r._field == "<name>"`, one disjunct of the field filter. */
  function FieldTest(name: string): string {
    "r._field == \"" + name + "\""
  }

  /** The fixed stages of the pipeline, after `from` and `range`. */
  const MeasurementFilter := "filter(fn: (r) => r._measurement == \"data\")"
  const FieldFilter := "filter(fn: (r) => " + FieldTest(LatitudeField) + " or " + FieldTest(LongitudeField) + " or " + FieldTest(AqiField) + ")"
  const PivotOnTime := "pivot(rowKey:[\"_time\"], columnKey: [\"_field\"], valueColumn: \"_value\")"
  const LimitRows := "limit(n: 100)"

  function FromStage(bucket: string): string {
    "from(bucket: \"" + bucket + "\")"
  }

  function RangeStage(rangeStart: string): string {
    "range(start: " + rangeStart + ")"
  }

  /** The literal parts of the f-string: the text before the bucket name,
      between the bucket name and the range start, and after the range start. */
  const QueryHead := Indent + "from(bucket: \""
  const BucketToRange := "\")" + Pipe + "range(start: "
  const QueryTail := ")" + Pipe + MeasurementFilter + Pipe + FieldFilter + Pipe + PivotOnTime + Pipe + LimitRows + Indent

  /** The query of app.py:21-28: the literal parts of the template with the
      bucket and the range start inserted between them. */
  function BuildQuery(bucket: string, rangeStart: string): string
  {
    QueryHead + bucket + BucketToRange + rangeStart + QueryTail
  }

  /** The bucket name and the range start appear in the query as they are,
      without quoting or escaping, between the fixed parts of the template. */
  lemma QueryEmbedsVerbatim(bucket: string, rangeStart: string)
    ensures var q := BuildQuery(bucket, rangeStart);
      && |q| == |QueryHead| + |bucket| + |BucketToRange| + |rangeStart| + |QueryTail|
      && q[..|QueryHead|] == QueryHead
      && q[|QueryHead|..|QueryHead| + |bucket|] == bucket
      && q[|QueryHead| + |bucket|..|QueryHead| + |bucket| + |BucketToRange|] == BucketToRange
      && q[|QueryHead| + |bucket| + |BucketToRange|..|q| - |QueryTail|] == rangeStart
      && q[|q| - |QueryTail|..] == QueryTail
  {
    SpliceAt(QueryHead, bucket, BucketToRange, rangeStart, QueryTail);
  }

  /** The stages of the pipeline, in the order the query chains them with `|>`. */
  function Stages(bucket: string, rangeStart: string): seq<string> {
    [FromStage(bucket), RangeStage(rangeStart), MeasurementFilter, FieldFilter, PivotOnTime, LimitRows]
  }

  /** Concatenation regrouped from the stage-by-stage layout of the template
      into its literal parts and holes. */
  lemma Regroup(i: string, p: string, f0: string, b: string, f1: string, r0: string, r: string, r1: string,
                m: string, f: string, v: string, l: string)
    ensures i + ((f0 + b + f1) + p + ((r0 + r + r1) + p + (m + p + (f + p + (v + p + l))))) + i
         == (i + f0) + b + (f1 + p + r0) + r + (r1 + p + m + p + f + p + v + p + l + i)
  {
  }

  /** The query is the six stages chained with `|>`, one per line. */
  lemma QueryIsPipeline(bucket: string, rangeStart: string)
    ensures BuildQuery(bucket, rangeStart) == Indent + Join(Stages(bucket, rangeStart), Pipe) + Indent
  {
    var s := Stages(bucket, rangeStart);
    assert Join(s[5..], Pipe) == LimitRows;
    assert Join(s[4..], Pipe) == PivotOnTime + Pipe + LimitRows by { assert s[4..][1..] == s[5..]; }
    assert Join(s[3..], Pipe) == FieldFilter + Pipe + Join(s[4..], Pipe) by { assert s[3..][1..] == s[4..]; }
    assert Join(s[2..], Pipe) == MeasurementFilter + Pipe + Join(s[3..], Pipe) by { assert s[2..][1..] == s[3..]; }
    assert Join(s[1..], Pipe) == RangeStage(rangeStart) + Pipe + Join(s[2..], Pipe) by { assert s[1..][1..] == s[2..]; }
    assert Join(s, Pipe) == FromStage(bucket) + Pipe + Join(s[1..], Pipe);
    Regroup(Indent, Pipe, "from(bucket: \"", bucket, "\")", "range(start: ", rangeStart, ")",
            MeasurementFilter, FieldFilter, PivotOnTime, LimitRows);
  }

  /** Where stage k starts in the query. */
  function StageStart(bucket: string, rangeStart: string, k: nat): nat
    requires k < |Stages(bucket, rangeStart)|
  {
    |Indent| + Offset(Stages(bucket, rangeStart), Pipe, k)
  }

  /** The stages appear in the fixed order from, range, measurement filter,
      field filter, pivot, limit: each one at its start, followed by `|>` and
      the next one, and the row limit last, followed only by whitespace. */
  lemma QueryStagesInOrder(bucket: string, rangeStart: string, k: nat)
    requires k < |Stages(bucket, rangeStart)|
    ensures var q, s, p := BuildQuery(bucket, rangeStart), Stages(bucket, rangeStart)[k], StageStart(bucket, rangeStart, k);
      && p + |s| <= |q|
      && q[p..p + |s|] == s
      && (k + 1 < |Stages(bucket, rangeStart)| ==>
            StageStart(bucket, rangeStart, k + 1) == p + |s| + |Pipe|
            && StageStart(bucket, rangeStart, k + 1) <= |q|
            && q[p + |s|..p + |s| + |Pipe|] == Pipe)
      && (k + 1 == |Stages(bucket, rangeStart)| ==> s == LimitRows && q[p + |s|..] == Indent)
  {
    var stages := Stages(bucket, rangeStart);
    var q := BuildQuery(bucket, rangeStart);
    QueryIsPipeline(bucket, rangeStart);
    PaddedJoinAt(Indent, stages, Pipe, k);
    var p := |Indent| + Offset(stages, Pipe, k);
    assert StageStart(bucket, rangeStart, k) == p;
    assert q == Indent + Join(stages, Pipe) + Indent;
  }

  /** The field filter is the disjunction, with `or`, of one test per reported
      field: a row passes if it carries any one of the three fields. */
  lemma FieldFilterIsDisjunction()
    ensures FieldFilter == "filter(fn: (r) => " + Join([FieldTest(LatitudeField), FieldTest(LongitudeField), FieldTest(AqiField)], " or ") + ")"
  {
    var tests := [FieldTest(LatitudeField), FieldTest(LongitudeField), FieldTest(AqiField)];
    assert tests[1..][1..] == [FieldTest(AqiField)];
    assert Join(tests[1..], " or ") == FieldTest(LongitudeField) + " or " + FieldTest(AqiField);
  }

  /** Reads the bucket name and the range start back out of a query: the
      bucket ends at the first double quote after `from(bucket: "`. */
  function ParseQuery(q: string): Option<(string, string)>
  {
    Unsplice(q, QueryHead, '"', BucketToRange, QueryTail)
  }

  /** A query built from a bucket name without a double quote reads back as
      the bucket and range start it was built from. */
  lemma ParseBuildQuery(bucket: string, rangeStart: string)
    requires '"' !in bucket
    ensures ParseQuery(BuildQuery(bucket, rangeStart)) == Some((bucket, rangeStart))
  {
    assert BucketToRange[0] == '"';
    UnspliceSplice(QueryHead, bucket, '"', BucketToRange, rangeStart, QueryTail);
  }

  /** Whatever reads back was built by `BuildQuery` from what it reads back
      as, with a bucket name that has no double quote. */
  lemma BuildParsedQuery(q: string, bucket: string, rangeStart: string)
    requires ParseQuery(q) == Some((bucket, rangeStart))
    ensures '"' !in bucket
    ensures BuildQuery(bucket, rangeStart) == q
  {
    SpliceUnsplice(q, QueryHead, '"', BucketToRange, QueryTail, bucket, rangeStart);
  }

  /** Because nothing is escaped, two different configurations can produce
      the same query text: the range clause can be smuggled in through the
      bucket name. */
  lemma BucketCanCarryRange(a: string, b: string, c: string)
    ensures a + BucketToRange + b != a
    ensures BuildQuery(a + BucketToRange + b, c) == BuildQuery(a, b + BucketToRange + c)
  {
    assert |a + BucketToRange + b| > |a|;
    SpliceShift(QueryHead, a, BucketToRange, b, c, QueryTail);
  }
}
