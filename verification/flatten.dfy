/** The result flattener of the `/latest` handler (app.py, lines 33-41).

    The store answers with a sequence of tables, each holding a sequence of
    records; a record's `values` maps column names to values. The handler
    walks the tables in order and, inside each, the records in order, and
    appends one three-field entry per record, reading each field with
    `dict.get`, so that an absent column becomes `None`. */
module Flattener {
  import opened Wrappers
  import FluxQuery

  /** One pivoted row as the store returns it (`record.values`). */
  datatype FluxRecord<V> = FluxRecord(values: map<string, V>)

  /** One table of the result (`table.records`). */
  datatype FluxTable<V> = FluxTable(records: seq<FluxRecord<V>>)

  /** The entry the endpoint emits for one record; `None` marks a field the
      record did not carry. */
  datatype AqiRecord<V> = AqiRecord(latitude: Option<V>, longitude: Option<V>, aqi: Option<V>)

  /** The keys of the emitted JSON object, in the order the source writes them. */
  const LatitudeKey := "latitude"
  const LongitudeKey := "longitude"
  const AqiKey := "AQI"

  /** Python's `values.get(key)`: the value under `key`, or `None`. */
  function Get<V>(values: map<string, V>, key: string): (r: Option<V>)
    ensures r.Some? <==> key in values
    ensures r.Some? ==> r.value == values[key]
  {
    if key in values then Some(values[key]) else None
  }

  /** The dict built for one record (app.py:36-40): each field holds the
      record's value for the matching store column when the record has that
      column, and `None` when it does not. A record with none of the three
      columns still yields an entry, with every field `None`. */
  function ToAqiRecord<V>(record: FluxRecord<V>): (r: AqiRecord<V>)
    ensures r.latitude.Some? <==> FluxQuery.LatitudeField in record.values
    ensures r.longitude.Some? <==> FluxQuery.LongitudeField in record.values
    ensures r.aqi.Some? <==> FluxQuery.AqiField in record.values
    ensures r.latitude.Some? ==> r.latitude.value == record.values[FluxQuery.LatitudeField]
    ensures r.longitude.Some? ==> r.longitude.value == record.values[FluxQuery.LongitudeField]
    ensures r.aqi.Some? ==> r.aqi.value == record.values[FluxQuery.AqiField]
  {
    AqiRecord(
      Get(record.values, FluxQuery.LatitudeField),
      Get(record.values, FluxQuery.LongitudeField),
      Get(record.values, FluxQuery.AqiField))
  }

  /** The entry as the JSON object the endpoint serialises: exactly the keys
      `latitude`, `longitude` and `AQI`, whatever other columns the record had. */
  function ToJsonObject<V>(entry: AqiRecord<V>): (obj: map<string, Option<V>>)
    ensures obj.Keys == {LatitudeKey, LongitudeKey, AqiKey}
    ensures obj[LatitudeKey] == entry.latitude
    ensures obj[LongitudeKey] == entry.longitude
    ensures obj[AqiKey] == entry.aqi
  {
    map[LatitudeKey := entry.latitude, LongitudeKey := entry.longitude, AqiKey := entry.aqi]
  }

  /** The entries for one table, in record order. */
  function MapRecords<V>(records: seq<FluxRecord<V>>): (r: seq<AqiRecord<V>>)
    ensures |r| == |records|
    ensures forall i :: 0 <= i < |records| ==> r[i] == ToAqiRecord(records[i])
  {
    seq(|records|, i requires 0 <= i < |records| => ToAqiRecord(records[i]))
  }

  /** The specification of the loop at app.py:33-41: the per-table entry
      sequences concatenated in table order. */
  function Flatten<V>(result: seq<FluxTable<V>>): seq<AqiRecord<V>>
  {
    if |result| == 0 then []
    else Flatten(result[..|result| - 1]) + MapRecords(result[|result| - 1].records)
  }

  /** All records of the result, tables in order and records in order. */
  function AllRecords<V>(result: seq<FluxTable<V>>): seq<FluxRecord<V>>
  {
    if |result| == 0 then []
    else AllRecords(result[..|result| - 1]) + result[|result| - 1].records
  }

  /** The number of records summed over all tables. */
  function RecordCount<V>(result: seq<FluxTable<V>>): nat
  {
    if |result| == 0 then 0
    else RecordCount(result[..|result| - 1]) + |result[|result| - 1].records|
  }

  /** Flattening is the per-record mapping applied to the records of all
      tables in turn: entry k comes from the k-th record overall. Nothing is
      filtered, reordered or merged. */
  lemma {:induction false} FlattenIsMapOfAllRecords<V>(result: seq<FluxTable<V>>)
    ensures |AllRecords(result)| == RecordCount(result)
    ensures Flatten(result) == MapRecords(AllRecords(result))
  {
    if |result| > 0 {
      var init, last := result[..|result| - 1], result[|result| - 1].records;
      FlattenIsMapOfAllRecords(init);
      MapRecordsAppend(AllRecords(init), last);
    }
  }

  /** Mapping distributes over concatenation. */
  lemma MapRecordsAppend<V>(a: seq<FluxRecord<V>>, b: seq<FluxRecord<V>>)
    ensures MapRecords(a + b) == MapRecords(a) + MapRecords(b)
  {
  }

  /** One entry per record: the output is exactly as long as the number of
      records over all tables. */
  lemma {:induction false} FlattenLength<V>(result: seq<FluxTable<V>>)
    ensures |Flatten(result)| == RecordCount(result)
  {
    FlattenIsMapOfAllRecords(result);
  }

  /** Flattening a result split in two is flattening each half in turn. */
  lemma {:induction false} FlattenAppend<V>(a: seq<FluxTable<V>>, b: seq<FluxTable<V>>)
    ensures Flatten(a + b) == Flatten(a) + Flatten(b)
    decreases |b|
  {
    if |b| > 0 {
      var b' := b[..|b| - 1];
      assert (a + b)[..|a + b| - 1] == a + b';
      FlattenAppend(a, b');
    } else {
      assert a + b == a;
    }
  }

  /** The result around table i: the tables before it, its own records, the tables after it. */
  lemma {:induction false} FlattenSplit<V>(result: seq<FluxTable<V>>, i: nat)
    requires i < |result|
    ensures Flatten(result) == Flatten(result[..i]) + MapRecords(result[i].records) + Flatten(result[i + 1..])
  {
    var before, here, after := result[..i], [result[i]], result[i + 1..];
    assert result == before + here + after;
    FlattenAppend(before + here, after);
    FlattenAppend(before, here);
    assert here[..0] == [];
    assert Flatten(here) == Flatten(here[..0]) + MapRecords(result[i].records);
  }

  /** Order is preserved: record j of table i becomes the entry at position
      j past the records of the tables before it. */
  lemma FlattenAt<V>(result: seq<FluxTable<V>>, i: nat, j: nat)
    requires i < |result| && j < |result[i].records|
    ensures RecordCount(result[..i]) + j < |Flatten(result)|
    ensures Flatten(result)[RecordCount(result[..i]) + j] == ToAqiRecord(result[i].records[j])
  {
    FlattenSplit(result, i);
    FlattenLength(result[..i]);
  }

  /** The output is empty exactly when every table is empty (in particular
      when there are no tables at all). */
  lemma {:induction false} FlattenEmpty<V>(result: seq<FluxTable<V>>)
    ensures Flatten(result) == [] <==> forall i :: 0 <= i < |result| ==> result[i].records == []
  {
    if Flatten(result) == [] {
      forall i | 0 <= i < |result| ensures result[i].records == [] {
        if result[i].records != [] {
          FlattenAt(result, i, 0);
        }
      }
    } else {
      FlattenLength(result);
      var _ := NonEmptyTable(result);
    }
  }

  /** A result with at least one record has a table holding one. */
  lemma {:induction false} NonEmptyTable<V>(result: seq<FluxTable<V>>) returns (i: nat)
    requires RecordCount(result) > 0
    ensures i < |result| && result[i].records != []
  {
    if result[|result| - 1].records != [] {
      i := |result| - 1;
    } else {
      i := NonEmptyTable(result[..|result| - 1]);
      assert result[..|result| - 1][i] == result[i];
    }
  }

  /** The loop of app.py:33-41: for each table, for each of its records,
      append the record's entry to `dataList`. */
  method FlattenResult<V>(result: seq<FluxTable<V>>) returns (dataList: seq<AqiRecord<V>>)
    ensures dataList == Flatten(result)
  {
    dataList := [];
    for t := 0 to |result|
      invariant dataList == Flatten(result[..t])
    {
      var records := result[t].records;
      for r := 0 to |records|
        invariant dataList == Flatten(result[..t]) + MapRecords(records[..r])
      {
        dataList := dataList + [ToAqiRecord(records[r])];
        assert records[..r + 1] == records[..r] + [records[r]];
      }
      assert records[..|records|] == records;
      assert result[..t + 1][..t] == result[..t];
    }
    assert result[..|result|] == result;
  }
}
