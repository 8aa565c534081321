/**
 The parameter tuple `load_data_to_postgres` binds to
 `INSERT INTO apod_data (title, explanation, url, date, media_type) VALUES (%s, %s, %s, %s, %s)`.
 */
module Insert {
  import opened Json
  import Projection

  /** The column list of the INSERT statement, in order. */
  const Columns: seq<string> := ["title", "explanation", "url", "date", "media_type"]

  /** Building the tuple either yields the five values or stops at the first
      `apod_data[key]` that raises `KeyError`. */
  datatype Result<T> = Ok(value: T) | MissingKey(key: string)

  /** The bound parameters, read field by field from the record left to right. */
  function Parameters(record: map<string, Value>): (r: Result<seq<Value>>)
    ensures r.Ok? <==> forall c :: c in Columns ==> c in record
    ensures r.Ok? ==> |r.value| == |Columns|
    ensures r.Ok? ==> forall i :: 0 <= i < |Columns| ==> r.value[i] == record[Columns[i]]
    ensures r.MissingKey? ==>
              exists i :: 0 <= i < |Columns| && Columns[i] == r.key && r.key !in record
                          && forall j :: 0 <= j < i ==> Columns[j] in record
  {
    if "title" !in record then assert Columns[0] == "title"; MissingKey("title")
    else if "explanation" !in record then assert Columns[1] == "explanation"; MissingKey("explanation")
    else if "url" !in record then assert Columns[2] == "url"; MissingKey("url")
    else if "date" !in record then assert Columns[3] == "date"; MissingKey("date")
    else if "media_type" !in record then assert Columns[4] == "media_type"; MissingKey("media_type")
    else Ok([record["title"], record["explanation"], record["url"],
             record["date"], record["media_type"]])
  }

  /** The INSERT columns are exactly the keys of every record the transform
      produces, each named once. */
  lemma ColumnsAreProjectionKeys(response: map<string, Value>)
    ensures forall c :: c in Columns <==> c in Projection.Transform(response)
    ensures |Columns| == |Projection.Transform(response)|
  {
  }

  /** A record produced by the transform always binds: parameter `i` is the
      transform's value for column `i`, which is the response's own value when
      the key was present and the empty string otherwise. */
  lemma TransformedRecordBinds(response: map<string, Value>)
    ensures Parameters(Projection.Transform(response)).Ok?
    ensures var ps := Parameters(Projection.Transform(response)).value;
            |ps| == 5
            && forall i :: 0 <= i < 5 ==>
                 ps[i] == (if Columns[i] in response then response[Columns[i]] else Empty)
  {
  }
}
