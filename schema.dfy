/**
 * Schema inspection: the worksheet list of a spreadsheet
 * (`get_available_sheets`, app.py:78-99) and the header row of one worksheet
 * (`get_sheet_headers`, app.py:101-117). Remote replies are oracles.
 */
module Schema {
  import opened Common
  import opened SheetsService

  /** Python's message for `[][0]`. */
  const IndexErrorMessage := "list index out of range"

  /** The `properties` object of one sheet in the metadata; every field may be absent. */
  datatype SheetProperties = SheetProperties(title: Option<string>, sheetId: Option<int>, index: Option<int>)

  /** One element of the metadata's `sheets` list; `properties` may be absent. */
  datatype SheetEntry = SheetEntry(properties: Option<SheetProperties>)

  /** The reply to `spreadsheets().get(...)`: it raises, or it has an optional `sheets` list. */
  datatype MetadataReply = MetadataRaised(cause: string) | Metadata(sheets: Option<seq<SheetEntry>>)

  /** The reply to `values().get(range=...)`: it raises, or it has an optional `values` grid. */
  datatype ValuesReply = ValuesRaised(cause: string) | ValueRange(values: Option<seq<seq<string>>>)

  datatype SheetDescriptor = SheetDescriptor(name: string, id: int, index: int)

  /** The metadata's sheet list, empty when the key is absent. */
  function EntriesOf(sheets: Option<seq<SheetEntry>>): seq<SheetEntry>
  {
    match sheets
    case None => []
    case Some(entries) => entries
  }

  /** The descriptor built from one metadata entry (app.py:90-95). */
  function Describe(e: SheetEntry): SheetDescriptor
  {
    match e.properties
    case None => SheetDescriptor("Unknown", 0, 0)
    case Some(p) =>
      SheetDescriptor(
        match p.title case Some(t) => t case None => "Unknown",
        match p.sheetId case Some(i) => i case None => 0,
        match p.index case Some(i) => i case None => 0)
  }

  /** Each field of a descriptor defaults independently of the others. */
  lemma DescribeDefaults(e: SheetEntry)
    ensures e.properties.None? ==> Describe(e) == SheetDescriptor("Unknown", 0, 0)
    ensures e.properties.Some? ==>
      var p := e.properties.value;
      && (p.title.Some? ==> Describe(e).name == p.title.value)
      && (p.title.None? ==> Describe(e).name == "Unknown")
      && (p.sheetId.Some? ==> Describe(e).id == p.sheetId.value)
      && (p.sheetId.None? ==> Describe(e).id == 0)
      && (p.index.Some? ==> Describe(e).index == p.index.value)
      && (p.index.None? ==> Describe(e).index == 0)
  {
  }

  /** What `get_available_sheets` returns for a connection and a metadata reply. */
  function SheetListing(conn: Connection, reply: MetadataReply): (r: Reply<seq<SheetDescriptor>>)
    ensures r.error.Some? ==> r.value == []
    ensures r.error.None? <==> GetGoogleService(conn).error.None? && reply.Metadata?
    ensures GetGoogleService(conn).error.Some? ==> r.error == GetGoogleService(conn).error
    ensures GetGoogleService(conn).error.None? && reply.MetadataRaised? ==> r.error == Some(SheetListFailed(reply.cause))
    ensures r.error.None? ==>
      var entries := EntriesOf(reply.sheets);
      |r.value| == |entries| && forall i :: 0 <= i < |entries| ==> r.value[i] == Describe(entries[i])
  {
    var service := GetGoogleService(conn);
    if service.error.Some? then Reply([], service.error)
    else
      match reply
      case MetadataRaised(cause) => Reply([], Some(SheetListFailed(cause)))
      case Metadata(sheets) =>
        var entries := EntriesOf(sheets);
        Reply(seq(|entries|, i requires 0 <= i < |entries| => Describe(entries[i])), None)
  }

  /** `get_available_sheets` (app.py:78-99): the loop that appends one descriptor per metadata entry. */
  method GetAvailableSheets(conn: Connection, reply: MetadataReply) returns (sheets: seq<SheetDescriptor>, error: Option<Error>)
    ensures Reply(sheets, error) == SheetListing(conn, reply)
  {
    var service := GetGoogleService(conn);
    if service.error.Some? {
      return [], service.error;
    }
    match reply {
      case MetadataRaised(cause) =>
        return [], Some(SheetListFailed(cause));
      case Metadata(metadata) =>
        var entries := EntriesOf(metadata);
        sheets := [];
        var i := 0;
        while i < |entries|
          invariant 0 <= i <= |entries|
          invariant |sheets| == i
          invariant forall j :: 0 <= j < i ==> sheets[j] == Describe(entries[j])
        {
          sheets := sheets + [Describe(entries[i])];
          i := i + 1;
        }
        assert sheets == SheetListing(conn, reply).value;
        error := None;
    }
  }

  /** `get_sheet_headers` (app.py:101-117): row 1 of the worksheet, as the reply gives it. */
  function GetSheetHeaders(conn: Connection, reply: ValuesReply): (r: Reply<seq<string>>)
    ensures r.error.Some? ==> r.value == []
    ensures GetGoogleService(conn).error.Some? ==> r.error == GetGoogleService(conn).error
    ensures r.error.None? <==>
      GetGoogleService(conn).error.None? && reply.ValueRange? && (reply.values.None? || reply.values.value != [])
    ensures r.error.None? && reply.values.None? ==> r.value == []
    ensures r.error.None? && reply.values.Some? ==> r.value == reply.values.value[0]
    ensures GetGoogleService(conn).error.None? && reply.ValuesRaised? ==> r.error == Some(HeaderFetchFailed(reply.cause))
    ensures GetGoogleService(conn).error.None? && reply == ValueRange(Some([])) ==> r.error == Some(HeaderFetchFailed(IndexErrorMessage))
  {
    var service := GetGoogleService(conn);
    if service.error.Some? then Reply([], service.error)
    else
      match reply
      case ValuesRaised(cause) => Reply([], Some(HeaderFetchFailed(cause)))
      case ValueRange(values) =>
        // an absent grid reads as one empty row; an empty grid has no first row
        var grid := match values case None => [[]] case Some(v) => v;
        if grid == [] then Reply([], Some(HeaderFetchFailed(IndexErrorMessage)))
        else Reply(grid[0], None)
  }
}
