/**
 * Building the spreadsheet client (`get_google_service`, app.py:57-76). The
 * client library is an oracle: given a bundle it either builds a client or
 * raises with a cause.
 */
module SheetsService {
  import opened Common
  import opened Credentials

  const SpreadsheetsScope := "https://www.googleapis.com/auth/spreadsheets"

  /** What `from_service_account_info` followed by `build` does with a bundle. */
  datatype BuildOutcome = Built | BuildRaised(cause: string)

  /** An authenticated client handle for the Sheets v4 API. */
  datatype Service = Service(credentials: CredentialBundle, scopes: seq<string>)

  /** Everything a call to `get_google_service` depends on. */
  datatype Connection = Connection(secrets: SecretStore, env: Environment, factory: CredentialBundle -> BuildOutcome)

  /** `get_google_service` (app.py:57-76). */
  function GetGoogleService(conn: Connection): (r: Reply<Option<Service>>)
    ensures r.value.Some? <==> r.error.None?
    ensures r.error != Some(NoCredentials)
    ensures r.value.Some? ==>
      && ResolveCredentials(conn.secrets, conn.env).value == Some(r.value.value.credentials)
      && r.value.value.scopes == [SpreadsheetsScope]
      && conn.factory(r.value.value.credentials) == Built
    ensures ResolveCredentials(conn.secrets, conn.env).error.Some? ==> r.error == ResolveCredentials(conn.secrets, conn.env).error
    ensures var creds := ResolveCredentials(conn.secrets, conn.env);
      creds.error.None? && conn.factory(creds.value.value).BuildRaised? ==>
        r.error == Some(ServiceBuildFailed(conn.factory(creds.value.value).cause))
  {
    var creds := ResolveCredentials(conn.secrets, conn.env);
    if creds.error.Some? then Reply(None, creds.error)
    else if creds.value.None? then Reply(None, Some(NoCredentials))
    else
      match conn.factory(creds.value.value)
      case Built => Reply(Some(Service(creds.value.value, [SpreadsheetsScope])), None)
      case BuildRaised(cause) => Reply(None, Some(ServiceBuildFailed(cause)))
  }

  /** A client is built exactly when credentials resolve and the library accepts them. */
  lemma ServiceAvailability(conn: Connection)
    ensures GetGoogleService(conn).error.None? <==>
      var creds := ResolveCredentials(conn.secrets, conn.env);
      creds.error.None? && conn.factory(creds.value.value) == Built
  {
  }
}
