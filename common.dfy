/**
 * Shared vocabulary of the sheet manager: optional values, the failure tags
 * (one per error message the application produces) and the (value, error)
 * pair its helper functions return.
 */
module Common {

  datatype Option<+T> = None | Some(value: T)

  /** Where a failure came from; the application's messages are reduced to one tag per origin. */
  datatype Error =
    | SecretsWithoutEmail                   // secrets readable, account email key absent (app.py:34)
    | EnvironmentWithoutEmail               // environment has no non-empty account email (app.py:53)
    | EnvironmentReadFailed(cause: string)  // reading the environment raised (app.py:55)
    | NoCredentials                         // credential lookup gave neither bundle nor error (app.py:65)
    | ServiceBuildFailed(cause: string)     // client construction raised (app.py:76)
    | SheetListFailed(cause: string)        // metadata request raised (app.py:99)
    | HeaderFetchFailed(cause: string)      // header request raised (app.py:117)
    | NoHeaders(sheetName: string)          // row 1 of the worksheet is empty (app.py:134)
    | AppendFailed(cause: string)           // append request raised (app.py:151)
    | SheetCreateFailed(cause: string)      // add-sheet request raised (app.py:179)

  /** The `(value, error)` pair returned by the helpers of app.py; `error` is `None` on success. */
  datatype Reply<T> = Reply(value: T, error: Option<Error>)

  /** Dictionary lookup with the empty string as the default. */
  function GetOrEmpty(d: map<string, string>, key: string): string
  {
    if key in d then d[key] else ""
  }
}
