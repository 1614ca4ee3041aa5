/**
 * Record assembly in `department_form` (app.py:263-308): one form field per
 * header, an optional JSON object merged over them, and the removal of empty
 * entries before submission.
 */
module Record {
  import opened Common
  import opened Projection

  /** The headers name pairwise different columns. */
  predicate Distinct(headers: seq<string>)
  {
    forall i, j :: 0 <= i < j < |headers| ==> headers[i] != headers[j]
  }

  /**
   * The form map after the field loop has visited every header: header `i`
   * was assigned `inputs[i]`, later assignments to a repeated header winning.
   */
  function FieldsOf(headers: seq<string>, inputs: seq<string>): (fields: map<string, string>)
    requires |inputs| == |headers|
    ensures fields.Keys == set i | 0 <= i < |headers| :: headers[i]
    decreases |headers|
  {
    if headers == [] then map[]
    else
      var n := |headers| - 1;
      FieldsOf(headers[..n], inputs[..n])[headers[n] := inputs[n]]
  }

  /** A header that does not occur again later holds the value typed into its own field. */
  lemma {:induction false} FieldsOfLastWins(headers: seq<string>, inputs: seq<string>, i: nat)
    requires |inputs| == |headers| && i < |headers|
    requires forall j :: i < j < |headers| ==> headers[j] != headers[i]
    ensures headers[i] in FieldsOf(headers, inputs) && FieldsOf(headers, inputs)[headers[i]] == inputs[i]
    decreases |headers|
  {
    var n := |headers| - 1;
    if i < n {
      FieldsOfLastWins(headers[..n], inputs[..n], i);
    }
  }

  /** The field loop of app.py:263-279: one widget value per header, in header order. */
  method CollectFields(headers: seq<string>, inputs: seq<string>) returns (rowData: map<string, string>)
    requires |inputs| == |headers|
    ensures rowData == FieldsOf(headers, inputs)
  {
    rowData := map[];
    var i := 0;
    while i < |headers|
      invariant 0 <= i <= |headers|
      invariant rowData == FieldsOf(headers[..i], inputs[..i])
    {
      assert headers[..i + 1][..i] == headers[..i] && inputs[..i + 1][..i] == inputs[..i];
      rowData := rowData[headers[i] := inputs[i]];
      i := i + 1;
    }
    assert headers[..i] == headers && inputs[..i] == inputs;
  }

  /** The JSON text area: blank, text that does not parse, or a flat object of strings. */
  datatype JsonInput = Blank | Malformed(message: string) | Object(fields: map<string, string>)

  /** The JSON merge of app.py:290-296: a parsed object updates the form map; anything else leaves it. */
  function MergeJson(rowData: map<string, string>, json: JsonInput): (merged: map<string, string>)
    ensures !json.Object? ==> merged == rowData
    ensures json.Object? ==> merged.Keys == rowData.Keys + json.fields.Keys
    ensures json.Object? ==> forall k :: k in json.fields ==> merged[k] == json.fields[k]
    ensures json.Object? ==> forall k :: k in rowData && k !in json.fields ==> merged[k] == rowData[k]
  {
    match json
    case Object(fields) => rowData + fields
    case _ => rowData
  }

  /** The filter of app.py:304: only entries whose value is a non-empty string survive. */
  function DropEmpty(rowData: map<string, string>): (filtered: map<string, string>)
    ensures forall k :: k in filtered <==> k in rowData && rowData[k] != ""
    ensures forall k :: k in filtered ==> filtered[k] == rowData[k]
  {
    map k | k in rowData && rowData[k] != "" :: rowData[k]
  }

  /** Filtering never changes a lookup that defaults to `""`. */
  lemma DropEmptyLookup(rowData: map<string, string>, key: string)
    ensures GetOrEmpty(DropEmpty(rowData), key) == GetOrEmpty(rowData, key)
  {
  }

  /** Filtering a record does not change the row it projects to. */
  lemma DropEmptyKeepsRow(headers: seq<string>, rowData: map<string, string>)
    ensures Project(headers, DropEmpty(rowData)) == Project(headers, rowData)
  {
  }

  /** Filtering twice filters no more than filtering once. */
  lemma DropEmptyIdempotent(rowData: map<string, string>)
    ensures DropEmpty(DropEmpty(rowData)) == DropEmpty(rowData)
  {
  }

  /** The filtered record is empty exactly when every entry was blank; then nothing is submitted. */
  lemma DropEmptyIsEmpty(rowData: map<string, string>)
    ensures DropEmpty(rowData) == map[] <==> forall k :: k in rowData ==> rowData[k] == ""
  {
  }

  /**
   * With pairwise different headers and no JSON, the row written is exactly
   * what was typed into the fields, blank fields included as empty cells.
   */
  lemma FormRowRoundTrip(headers: seq<string>, inputs: seq<string>)
    requires |inputs| == |headers| && Distinct(headers)
    ensures Project(headers, DropEmpty(MergeJson(FieldsOf(headers, inputs), Blank))) == inputs
  {
    var fields := FieldsOf(headers, inputs);
    DropEmptyKeepsRow(headers, fields);
    forall i | 0 <= i < |headers| ensures Project(headers, fields)[i] == inputs[i] {
      FieldsOfLastWins(headers, inputs, i);
    }
  }

  /**
   * With a JSON object, each header's cell is the JSON value when the object
   * has that key, and the typed value otherwise.
   */
  lemma JsonOverridesFields(headers: seq<string>, inputs: seq<string>, json: map<string, string>, i: nat)
    requires |inputs| == |headers| && Distinct(headers) && i < |headers|
    ensures Project(headers, DropEmpty(MergeJson(FieldsOf(headers, inputs), Object(json))))[i]
         == if headers[i] in json then json[headers[i]] else inputs[i]
  {
    var merged := MergeJson(FieldsOf(headers, inputs), Object(json));
    DropEmptyKeepsRow(headers, merged);
    FieldsOfLastWins(headers, inputs, i);
  }

  /** Worked example: JSON keys replace form keys and add new ones. */
  lemma MergeExample()
    ensures MergeJson(map["name" := "Ali"], Object(map["name" := "Sara", "email" := "s@x.com"]))
         == map["name" := "Sara", "email" := "s@x.com"]
  {
  }
}
