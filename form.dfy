/**
 * The submit path of `department_form` (app.py:239-320): fetch the headers,
 * collect one value per header, merge the JSON object, drop empty entries and
 * append the record unless nothing is left. The save button is taken as pressed.
 */
module Form {
  import opened Common
  import opened SheetsService
  import opened Schema
  import opened Projection
  import opened Record
  import opened Append

  /** How one pass through the form ends. */
  datatype FormOutcome =
    | HeadersUnavailable(error: Error)  // app.py:246-248
    | HeadersMissing                    // app.py:250-253
    | NothingToSave                     // app.py:306-308
    | Saved(result: RowResult)          // app.py:310-320

  /** The record the form hands to the append pipeline. */
  function SubmittedRecord(headers: seq<string>, inputs: seq<string>, json: JsonInput): (record: map<string, string>)
    requires |inputs| == |headers|
    ensures forall k :: k in record ==> record[k] != ""
    ensures forall k :: k in record ==> (json.Object? && k in json.fields) || exists i :: 0 <= i < |headers| && headers[i] == k
  {
    DropEmpty(MergeJson(FieldsOf(headers, inputs), json))
  }

  /**
   * One submission of the form for worksheet `ws`. `formHeaders` is the reply
   * the form itself got for row 1, `saveHeaders` the one the append pipeline
   * gets, `inputs` the value of each header's field.
   */
  method DepartmentForm(ws: Worksheet, conn: Connection, formHeaders: ValuesReply, inputs: seq<string>,
                        json: JsonInput, saveHeaders: ValuesReply, reply: AppendReply)
    returns (o: FormOutcome)
    requires |inputs| == |GetSheetHeaders(conn, formHeaders).value|
    modifies ws
    ensures var headers := GetSheetHeaders(conn, formHeaders);
      headers.error.Some? ==> o == HeadersUnavailable(headers.error.value)
    ensures var headers := GetSheetHeaders(conn, formHeaders);
      headers.error.None? && headers.value == [] ==> o == HeadersMissing
    ensures var headers := GetSheetHeaders(conn, formHeaders);
      headers.error.None? && headers.value != [] && SubmittedRecord(headers.value, inputs, json) == map[] ==> o == NothingToSave
    ensures var headers := GetSheetHeaders(conn, formHeaders);
      headers.error.None? && headers.value != [] && SubmittedRecord(headers.value, inputs, json) != map[] ==> o.Saved?
    ensures !o.Saved? ==> ws.rows == old(ws.rows) && ws.requests == old(ws.requests)
    ensures o.Saved? ==>
      var plan := PlanAppend(conn, ws.title, saveHeaders, SubmittedRecord(GetSheetHeaders(conn, formHeaders).value, inputs, json));
      && (plan.Reject? ==> o.result == RowError(plan.error) && ws.rows == old(ws.rows) && ws.requests == old(ws.requests))
      && (plan.Send? ==> ws.requests == old(ws.requests) + [RequestFor(ws.title, plan.values)])
      && (plan.Send? && reply.Appended? ==> o.result == RowAdded(UpdatesOf(reply.updates)) && ws.rows == old(ws.rows) + [plan.values])
      && (plan.Send? && reply.AppendRaised? ==> o.result == RowError(AppendFailed(reply.cause)) && ws.rows == old(ws.rows))
  {
    var headers := GetSheetHeaders(conn, formHeaders);
    if headers.error.Some? {
      return HeadersUnavailable(headers.error.value);
    }
    if headers.value == [] {
      return HeadersMissing;
    }
    var rowData := CollectFields(headers.value, inputs);
    rowData := MergeJson(rowData, json);
    var filtered := DropEmpty(rowData);
    if filtered == map[] {
      return NothingToSave;
    }
    var r := ws.AddRow(conn, saveHeaders, filtered, reply);
    o := Saved(r);
  }

  /**
   * When both header fetches see the same pairwise different headers and no
   * JSON is given, the row sent is exactly the sequence of typed values.
   */
  lemma SentRowIsTyped(conn: Connection, sheetName: string, headerReply: ValuesReply, inputs: seq<string>)
    requires GetSheetHeaders(conn, headerReply).error.None?
    requires var headers := GetSheetHeaders(conn, headerReply).value;
      headers != [] && Distinct(headers) && |inputs| == |headers|
    ensures var headers := GetSheetHeaders(conn, headerReply).value;
      PlanAppend(conn, sheetName, headerReply, SubmittedRecord(headers, inputs, Blank)) == Send(inputs)
  {
    var headers := GetSheetHeaders(conn, headerReply).value;
    var record := SubmittedRecord(headers, inputs, Blank);
    FormRowRoundTrip(headers, inputs);
    var plan := PlanAppend(conn, sheetName, headerReply, record);
    assert plan.values == Project(headers, record);
  }
}
