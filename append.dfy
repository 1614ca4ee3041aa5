/**
 * The append pipeline (`add_row_to_sheet`, app.py:119-151). The remote
 * worksheet is an object whose rows the append request extends; whether the
 * request is accepted is an oracle.
 */
module Append {
  import opened Common
  import opened SheetsService
  import opened Schema
  import opened Projection

  // Parameters of every append request (app.py:142-144).
  const AppendColumns := "!A:Z"
  const RawInput := "RAW"
  const InsertRows := "INSERT_ROWS"

  /** An append request as the remote worksheet receives it. */
  datatype AppendRequest = AppendRequest(range: string, valueInputOption: string, insertDataOption: string, values: seq<seq<string>>)

  /** The reply to the append request: it raises, or it reports optional update metadata. */
  datatype AppendReply = AppendRaised(cause: string) | Appended(updates: Option<map<string, string>>)

  /** The dictionary `add_row_to_sheet` returns: success with the update metadata, or an error. */
  datatype RowResult = RowAdded(updates: map<string, string>) | RowError(error: Error)

  /** What `add_row_to_sheet` decides before any append request: give up with an error, or send a row. */
  datatype Plan = Reject(error: Error) | Send(values: seq<string>)

  /** The request that appends one row to the worksheet called `sheetName`. */
  function RequestFor(sheetName: string, row: seq<string>): AppendRequest
  {
    AppendRequest(sheetName + AppendColumns, RawInput, InsertRows, [row])
  }

  /** The update metadata of a reply, empty when the reply has none. */
  function UpdatesOf(updates: Option<map<string, string>>): map<string, string>
  {
    match updates
    case None => map[]
    case Some(u) => u
  }

  /**
   * The checks of app.py:121-137: a service error, a header error or an empty
   * header row each stop the pipeline; otherwise the record is projected.
   */
  function PlanAppend(conn: Connection, sheetName: string, headerReply: ValuesReply, rowData: map<string, string>): (p: Plan)
    ensures var headers := GetSheetHeaders(conn, headerReply);
      p.Send? <==> headers.error.None? && headers.value != []
    ensures GetGoogleService(conn).error.Some? ==> p == Reject(GetGoogleService(conn).error.value)
    ensures var headers := GetSheetHeaders(conn, headerReply);
      headers.error.Some? ==> p == Reject(headers.error.value)
    ensures var headers := GetSheetHeaders(conn, headerReply);
      headers.error.None? && headers.value == [] ==> p == Reject(NoHeaders(sheetName))
    ensures var headers := GetSheetHeaders(conn, headerReply).value;
      p.Send? ==> (|p.values| == |headers| > 0 &&
                   forall i :: 0 <= i < |headers| ==> p.values[i] == GetOrEmpty(rowData, headers[i]))
  {
    var service := GetGoogleService(conn);
    if service.error.Some? then Reject(service.error.value)
    else
      var headers := GetSheetHeaders(conn, headerReply);
      if headers.error.Some? then Reject(headers.error.value)
      else if headers.value == [] then Reject(NoHeaders(sheetName))
      else Send(Project(headers.value, rowData))
  }

  /** One worksheet of the remote spreadsheet. */
  class Worksheet {
    const title: string
    /** The worksheet's rows, row 1 (the headers) first. */
    var rows: seq<seq<string>>
    /** Every append request this worksheet has received, oldest first. */
    var requests: seq<AppendRequest>

    constructor (title: string, rows: seq<seq<string>>)
      ensures this.title == title && this.rows == rows && requests == []
    {
      this.title := title;
      this.rows := rows;
      requests := [];
    }

    /**
     * `add_row_to_sheet` on this worksheet. No request is sent unless the
     * checks pass; an accepted request adds exactly the projected row at the
     * end; a raised request leaves the rows as they were.
     */
    method AddRow(conn: Connection, headerReply: ValuesReply, rowData: map<string, string>, reply: AppendReply)
      returns (r: RowResult)
      modifies this
      ensures var plan := PlanAppend(conn, title, headerReply, rowData);
        plan.Reject? ==> r == RowError(plan.error) && rows == old(rows) && requests == old(requests)
      ensures var plan := PlanAppend(conn, title, headerReply, rowData);
        plan.Send? ==> requests == old(requests) + [RequestFor(title, plan.values)]
      ensures var plan := PlanAppend(conn, title, headerReply, rowData);
        plan.Send? && reply.Appended? ==> r == RowAdded(UpdatesOf(reply.updates)) && rows == old(rows) + [plan.values]
      ensures var plan := PlanAppend(conn, title, headerReply, rowData);
        plan.Send? && reply.AppendRaised? ==> r == RowError(AppendFailed(reply.cause)) && rows == old(rows)
    {
      var service := GetGoogleService(conn);
      if service.error.Some? {
        return RowError(service.error.value);
      }
      var headers := GetSheetHeaders(conn, headerReply);
      if headers.error.Some? {
        return RowError(headers.error.value);
      }
      if headers.value == [] {
        return RowError(NoHeaders(title));
      }
      var values := Project(headers.value, rowData);
      requests := requests + [RequestFor(title, values)];
      match reply {
        case AppendRaised(cause) =>
          r := RowError(AppendFailed(cause));
        case Appended(updates) =>
          rows := rows + [values];
          r := RowAdded(UpdatesOf(updates));
      }
    }
  }

  /** An empty header row stops the pipeline before any append request, whatever the record. */
  lemma NoAppendWithoutHeaders(conn: Connection, sheetName: string, headerReply: ValuesReply, rowData: map<string, string>)
    requires GetSheetHeaders(conn, headerReply).value == []
    ensures PlanAppend(conn, sheetName, headerReply, rowData).Reject?
  {
  }
}
