/**
 * Worksheet creation (`create_new_sheet`, app.py:153-179) and the session's
 * inventory of worksheets kept by `sidebar_config` (app.py:197-237), taken as
 * a small state machine: unknown, or a known list.
 */
module Inventory {
  import opened Common
  import opened SheetsService
  import opened Schema

  /** The reply to the add-sheet batch update: it raises, or it returns a result object. */
  datatype BatchReply = BatchRaised(cause: string) | BatchUpdated(result: map<string, string>)

  /** The dictionary `create_new_sheet` returns. */
  datatype CreateResult = SheetCreated(result: map<string, string>) | CreateError(error: Error)

  /** `create_new_sheet` (app.py:153-179). */
  function CreateNewSheet(conn: Connection, reply: BatchReply): (r: CreateResult)
    ensures r.SheetCreated? <==> GetGoogleService(conn).error.None? && reply.BatchUpdated?
    ensures r.SheetCreated? ==> r.result == reply.result
    ensures GetGoogleService(conn).error.Some? ==> r == CreateError(GetGoogleService(conn).error.value)
    ensures GetGoogleService(conn).error.None? && reply.BatchRaised? ==> r == CreateError(SheetCreateFailed(reply.cause))
  {
    var service := GetGoogleService(conn);
    if service.error.Some? then CreateError(service.error.value)
    else
      match reply
      case BatchRaised(cause) => CreateError(SheetCreateFailed(cause))
      case BatchUpdated(result) => SheetCreated(result)
  }

  /** The session's `available_sheets` entry: absent until first loaded. */
  class SessionInventory {
    var availableSheets: Option<seq<SheetDescriptor>>

    constructor ()
      ensures availableSheets == None
    {
      availableSheets := None;
    }

    /** The stored worksheet list, or `[]` when none is stored; what a pass that does not fail offers (app.py:237). */
    function Offered(): (sheets: seq<SheetDescriptor>)
      reads this
      ensures availableSheets.None? ==> sheets == []
      ensures availableSheets.Some? ==> sheets == availableSheets.value
    {
      match availableSheets
      case None => []
      case Some(s) => s
    }

    /**
     * The connection check (app.py:198-207). A failure leaves the stored list
     * as it was and the sidebar offers nothing this time; a success replaces it.
     */
    method CheckConnection(conn: Connection, reply: MetadataReply) returns (offered: seq<SheetDescriptor>, error: Option<Error>)
      modifies this
      ensures error == SheetListing(conn, reply).error
      ensures error.Some? ==> offered == [] && availableSheets == old(availableSheets) && Offered() == old(Offered())
      ensures error.None? ==> availableSheets == Some(SheetListing(conn, reply).value) && offered == Offered()
    {
      var sheets;
      sheets, error := GetAvailableSheets(conn, reply);
      if error.Some? {
        return [], error;
      }
      availableSheets := Some(sheets);
      offered := Offered();
    }

    /**
     * The first load (app.py:210-215): only when nothing is stored yet; a
     * failure stores the empty list.
     */
    method LoadIfMissing(conn: Connection, reply: MetadataReply)
      modifies this
      ensures old(availableSheets).Some? ==> availableSheets == old(availableSheets)
      ensures old(availableSheets).None? ==> availableSheets == Some(SheetListing(conn, reply).value)
      ensures Offered() == if old(availableSheets).Some? then old(Offered()) else SheetListing(conn, reply).value
    {
      if availableSheets.None? {
        var sheets, error := GetAvailableSheets(conn, reply);
        if error.None? {
          availableSheets := Some(sheets);
        } else {
          availableSheets := Some([]);
        }
      }
    }

    /**
     * The create button (app.py:221-235). A blank name does nothing; a failed
     * creation leaves the stored list; a successful one stores whatever the
     * refresh returns, the empty list when the refresh fails.
     */
    method CreateSheet(conn: Connection, newName: string, createReply: BatchReply, refreshReply: MetadataReply)
      returns (r: Option<CreateResult>)
      modifies this
      ensures newName == "" ==> r == None && availableSheets == old(availableSheets)
      ensures newName != "" ==> r == Some(CreateNewSheet(conn, createReply))
      ensures r.Some? && r.value.CreateError? ==> availableSheets == old(availableSheets)
      ensures r.Some? && r.value.SheetCreated? ==> availableSheets == Some(SheetListing(conn, refreshReply).value)
      ensures r.Some? && r.value.SheetCreated? ==> Offered() == SheetListing(conn, refreshReply).value
    {
      if newName == "" {
        return None;
      }
      var created := CreateNewSheet(conn, createReply);
      r := Some(created);
      if created.SheetCreated? {
        var sheets, _ := GetAvailableSheets(conn, refreshReply);
        availableSheets := Some(sheets);
      }
    }
  }
}
