/**
 * Header-aligned row projection (app.py:137): a record, keyed by column
 * name, becomes the row of cells written under the worksheet's headers.
 */
module Projection {
  import opened Common

  /** One cell per header, in header order; a header the record lacks gets `""`. */
  function Project(headers: seq<string>, record: map<string, string>): (row: seq<string>)
    ensures |row| == |headers|
    ensures forall i :: 0 <= i < |headers| ==> row[i] == GetOrEmpty(record, headers[i])
  {
    if headers == [] then []
    else [GetOrEmpty(record, headers[0])] + Project(headers[1..], record)
  }

  /** Two columns with the same header receive the same cell. */
  lemma DuplicateHeadersShareCell(headers: seq<string>, record: map<string, string>, i: nat, j: nat)
    requires i < |headers| && j < |headers| && headers[i] == headers[j]
    ensures Project(headers, record)[i] == Project(headers, record)[j]
  {
  }

  /** The row depends on the record only through the headers' keys. */
  lemma ProjectAgreesOnHeaders(headers: seq<string>, r1: map<string, string>, r2: map<string, string>)
    requires forall i :: 0 <= i < |headers| ==> GetOrEmpty(r1, headers[i]) == GetOrEmpty(r2, headers[i])
    ensures Project(headers, r1) == Project(headers, r2)
  {
  }

  /** A key that is not a header is dropped: adding, changing or removing it does not change the row. */
  lemma OtherKeysDropped(headers: seq<string>, record: map<string, string>, key: string, v: string)
    requires forall i :: 0 <= i < |headers| ==> headers[i] != key
    ensures Project(headers, record[key := v]) == Project(headers, record)
    ensures Project(headers, record - {key}) == Project(headers, record)
  {
  }

  /** Keeping only the header keys of a record projects to the same row. */
  lemma ProjectRestricted(headers: seq<string>, record: map<string, string>)
    ensures var keep := set i | 0 <= i < |headers| :: headers[i];
      Project(headers, map k | k in record && k in keep :: record[k]) == Project(headers, record)
  {
  }

  /** Projecting onto concatenated header lists concatenates the rows. */
  lemma ProjectConcat(h1: seq<string>, h2: seq<string>, record: map<string, string>)
    ensures Project(h1 + h2, record) == Project(h1, record) + Project(h2, record)
  {
  }

  /** Worked examples: a missing field becomes an empty cell, an unknown field is dropped. */
  lemma ProjectExamples()
    ensures Project(["name", "email"], map["name" := "Ali"]) == ["Ali", ""]
    ensures Project(["name", "email"], map["name" := "Ali", "phone" := "123"]) == ["Ali", ""]
  {
  }
}
