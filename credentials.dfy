/**
 * Credential resolution (`get_google_credentials`, app.py:15-55): a decision
 * procedure over two sources, a secrets store and the process environment,
 * producing the service-account bundle the client library expects.
 */
module Credentials {
  import opened Common

  // Key names shared by both sources.
  const EmailKey := "GOOGLE_SERVICE_ACCOUNT_EMAIL"
  const ProjectIdKey := "GOOGLE_PROJECT_ID"
  const PrivateKeyIdKey := "GOOGLE_PRIVATE_KEY_ID"
  const PrivateKeyKey := "GOOGLE_PRIVATE_KEY"
  const ClientIdKey := "GOOGLE_CLIENT_ID"

  // Fixed fields of every bundle.
  const AccountType := "service_account"
  const AuthUri := "https://accounts.google.com/o/oauth2/auth"
  const TokenUri := "https://oauth2.googleapis.com/token"
  const ProviderCertUrl := "https://www.googleapis.com/oauth2/v1/certs"
  const ClientCertPrefix := "https://www.googleapis.com/robot/v1/metadata/x509/"

  /** The secrets store: either reading it raises (no secrets file), or it is a flat string map. */
  datatype SecretStore = SecretsUnavailable | Secrets(entries: map<string, string>)

  /** The process environment: either reading it raises, or it is a map of variables. */
  datatype Environment = EnvironmentUnreadable(cause: string) | Variables(vars: map<string, string>)

  datatype CredentialBundle = CredentialBundle(
    accountType: string,
    projectId: string,
    privateKeyId: string,
    privateKey: string,
    clientEmail: string,
    clientId: string,
    authUri: string,
    tokenUri: string,
    authProviderCertUrl: string,
    clientCertUrl: string)

  /** No backslash is immediately followed by the letter `n`. */
  predicate NoEscapedNewline(s: string)
  {
    forall i :: 0 <= i < |s| - 1 ==> !(s[i] == '\\' && s[i + 1] == 'n')
  }

  /**
   * Private-key normalisation: every two-character sequence backslash, `n`,
   * taken left to right without overlap, becomes one newline.
   */
  function Unescape(s: string): (r: string)
    ensures NoEscapedNewline(r)
    ensures |r| <= |s|
    ensures |s| > 0 ==> |r| > 0 && (r[0] == 'n' <==> s[0] == 'n')
  {
    if |s| < 2 then s
    else if s[0] == '\\' && s[1] == 'n' then "\n" + Unescape(s[2..])
    else [s[0]] + Unescape(s[1..])
  }

  /**
   * The way a multi-line key is stored in a flat secret: each newline is
   * written as backslash, `n`. This is the inverse that `Unescape` undoes.
   */
  function Escape(t: string): (r: string)
    ensures forall i :: 0 <= i < |r| ==> r[i] != '\n'
    ensures |t| > 0 ==> |r| > 0 && (r[0] == 'n' <==> t[0] == 'n')
  {
    if t == [] then []
    else (if t[0] == '\n' then "\\n" else [t[0]]) + Escape(t[1..])
  }

  /** A string with no backslash-`n` pair is left as it is. */
  lemma {:induction false} UnescapeFixesClean(s: string)
    requires NoEscapedNewline(s)
    ensures Unescape(s) == s
  {
    if |s| >= 2 {
      assert NoEscapedNewline(s[1..]) by {
        forall i | 0 <= i < |s[1..]| - 1 ensures !(s[1..][i] == '\\' && s[1..][i + 1] == 'n') {
          assert s[1..][i] == s[i + 1] && s[1..][i + 1] == s[i + 2];
        }
      }
      UnescapeFixesClean(s[1..]);
      assert !(s[0] == '\\' && s[1] == 'n');
    }
  }

  /** Normalising a key twice gives the same key as normalising it once. */
  lemma UnescapeIdempotent(s: string)
    ensures Unescape(Unescape(s)) == Unescape(s)
  {
  }

  /** A key whose text has no backslash-`n` pair survives being stored escaped and read back. */
  lemma {:induction false} UnescapeEscapeRoundTrip(t: string)
    requires NoEscapedNewline(t)
    ensures Unescape(Escape(t)) == t
  {
    if t != [] {
      var rest := t[1..];
      assert NoEscapedNewline(rest) by {
        forall i | 0 <= i < |rest| - 1 ensures !(rest[i] == '\\' && rest[i + 1] == 'n') {
          assert rest[i] == t[i + 1] && rest[i + 1] == t[i + 2];
        }
      }
      UnescapeEscapeRoundTrip(rest);
      var e := Escape(t);
      if t[0] == '\n' {
        assert e == "\\n" + Escape(rest);
        assert e[2..] == Escape(rest);
      } else {
        assert e == [t[0]] + Escape(rest);
        assert e[1..] == Escape(rest);
        if |e| >= 2 {
          assert e[1] == Escape(rest)[0];
          assert !(e[0] == '\\' && e[1] == 'n');
        } else {
          assert rest == [];
        }
      }
    }
  }

  /** The certificate URL of an account: the fixed prefix followed by the account email. */
  function ClientCertUrl(email: string): (url: string)
    ensures |url| == |ClientCertPrefix| + |email|
    ensures url[..|ClientCertPrefix|] == ClientCertPrefix && url[|ClientCertPrefix|..] == email
  {
    ClientCertPrefix + email
  }

  /** Different accounts never share a certificate URL. */
  lemma ClientCertUrlInjective(a: string, b: string)
    requires ClientCertUrl(a) == ClientCertUrl(b)
    ensures a == b
  {
  }

  /**
   * The dictionary literal at app.py:20-31 and app.py:39-50: the five looked-up
   * fields plus the fixed endpoints, with the key normalised.
   */
  function MakeBundle(projectId: string, privateKeyId: string, rawKey: string, email: string, clientId: string): (b: CredentialBundle)
    ensures b.accountType == AccountType
    ensures b.clientEmail == email && b.projectId == projectId && b.privateKeyId == privateKeyId && b.clientId == clientId
    ensures b.privateKey == Unescape(rawKey) && NoEscapedNewline(b.privateKey)
    ensures b.authUri == AuthUri && b.tokenUri == TokenUri && b.authProviderCertUrl == ProviderCertUrl
    ensures b.clientCertUrl == ClientCertPrefix + email
  {
    CredentialBundle(AccountType, projectId, privateKeyId, Unescape(rawKey), email, clientId,
                     AuthUri, TokenUri, ProviderCertUrl, ClientCertUrl(email))
  }

  /**
   * Whether the secrets branch (app.py:17-34) ends in an exception: the store
   * cannot be read, or it names an account email but lacks the private key,
   * whose `st.secrets[...]` lookup raises.
   */
  predicate SecretsRaise(secrets: SecretStore)
  {
    secrets.SecretsUnavailable? || (EmailKey in secrets.entries && PrivateKeyKey !in secrets.entries)
  }

  /** The environment branch (app.py:37-55). */
  function FromEnvironment(env: Environment): (r: Reply<Option<CredentialBundle>>)
    ensures r.value.Some? <==> r.error.None?
    ensures r.value.Some? ==> env.Variables? && EmailKey in env.vars && r.value.value.clientEmail == env.vars[EmailKey] != ""
    ensures env.Variables? && GetOrEmpty(env.vars, EmailKey) == "" ==> r.error == Some(EnvironmentWithoutEmail)
    ensures env.EnvironmentUnreadable? ==> r.error == Some(EnvironmentReadFailed(env.cause))
    ensures env.Variables? && GetOrEmpty(env.vars, EmailKey) != "" ==>
      && r.value.Some?
      && var b := r.value.value;
      && b.privateKey == Unescape(GetOrEmpty(env.vars, PrivateKeyKey))
      && b.projectId == GetOrEmpty(env.vars, ProjectIdKey)
      && b.privateKeyId == GetOrEmpty(env.vars, PrivateKeyIdKey)
      && b.clientId == GetOrEmpty(env.vars, ClientIdKey)
      && b.accountType == AccountType && b.authUri == AuthUri && b.tokenUri == TokenUri
      && b.authProviderCertUrl == ProviderCertUrl && b.clientCertUrl == ClientCertUrl(b.clientEmail)
  {
    match env
    case EnvironmentUnreadable(cause) => Reply(None, Some(EnvironmentReadFailed(cause)))
    case Variables(vars) =>
      if GetOrEmpty(vars, EmailKey) != "" then
        Reply(Some(MakeBundle(GetOrEmpty(vars, ProjectIdKey), GetOrEmpty(vars, PrivateKeyIdKey),
                              GetOrEmpty(vars, PrivateKeyKey), vars[EmailKey], GetOrEmpty(vars, ClientIdKey))), None)
      else
        Reply(None, Some(EnvironmentWithoutEmail))
  }

  /** `get_google_credentials` (app.py:15-55). */
  function ResolveCredentials(secrets: SecretStore, env: Environment): (r: Reply<Option<CredentialBundle>>)
    ensures r.value.Some? <==> r.error.None?
    ensures r.value.Some? ==> NoEscapedNewline(r.value.value.privateKey)
    ensures r.value.Some? ==> r.value.value.clientCertUrl == ClientCertPrefix + r.value.value.clientEmail
  {
    match secrets
    case SecretsUnavailable => FromEnvironment(env)
    case Secrets(s) =>
      if EmailKey in s then
        if PrivateKeyKey in s then
          Reply(Some(MakeBundle(GetOrEmpty(s, ProjectIdKey), GetOrEmpty(s, PrivateKeyIdKey),
                                s[PrivateKeyKey], s[EmailKey], GetOrEmpty(s, ClientIdKey))), None)
        else
          FromEnvironment(env)
      else
        Reply(None, Some(SecretsWithoutEmail))
  }

  /**
   * A readable secrets store holding the email and the private key supplies
   * the bundle, whatever the environment holds.
   */
  lemma SecretsTakePrecedence(s: map<string, string>, env1: Environment, env2: Environment)
    requires EmailKey in s && PrivateKeyKey in s
    ensures ResolveCredentials(Secrets(s), env1) == ResolveCredentials(Secrets(s), env2)
    ensures ResolveCredentials(Secrets(s), env1).value.Some?
    ensures var b := ResolveCredentials(Secrets(s), env1).value.value;
      b.clientEmail == s[EmailKey] && b.privateKey == Unescape(s[PrivateKeyKey])
      && b.projectId == GetOrEmpty(s, ProjectIdKey) && b.privateKeyId == GetOrEmpty(s, PrivateKeyIdKey)
      && b.clientId == GetOrEmpty(s, ClientIdKey)
    ensures ResolveCredentials(Secrets(s), env1).value
         == Some(MakeBundle(GetOrEmpty(s, ProjectIdKey), GetOrEmpty(s, PrivateKeyIdKey), s[PrivateKeyKey],
                            s[EmailKey], GetOrEmpty(s, ClientIdKey)))
  {
  }

  /** A readable secrets store without the email key fails at once; the environment is not consulted. */
  lemma MissingSecretEmailFails(s: map<string, string>, env: Environment)
    requires EmailKey !in s
    ensures ResolveCredentials(Secrets(s), env) == Reply(None, Some(SecretsWithoutEmail))
  {
  }

  /** The environment influences the result only when the secrets branch raised. */
  lemma EnvironmentOnlyAfterRaise(secrets: SecretStore, env1: Environment, env2: Environment)
    requires ResolveCredentials(secrets, env1) != ResolveCredentials(secrets, env2)
    ensures SecretsRaise(secrets)
  {
  }

  /**
   * After the secrets branch raised, the environment decides: a non-empty
   * email gives the environment's bundle, optional fields defaulting to `""`;
   * an absent or empty email, or an environment that cannot be read, is a failure.
   */
  lemma EnvironmentFallback(secrets: SecretStore, vars: map<string, string>, cause: string, env: Environment)
    requires SecretsRaise(secrets)
    ensures ResolveCredentials(secrets, Variables(vars)).value.Some? <==> GetOrEmpty(vars, EmailKey) != ""
    ensures GetOrEmpty(vars, EmailKey) == "" ==> ResolveCredentials(secrets, Variables(vars)).error == Some(EnvironmentWithoutEmail)
    ensures GetOrEmpty(vars, EmailKey) != "" ==>
      var b := ResolveCredentials(secrets, Variables(vars)).value.value;
      b.clientEmail == vars[EmailKey] && b.privateKey == Unescape(GetOrEmpty(vars, PrivateKeyKey))
      && b.projectId == GetOrEmpty(vars, ProjectIdKey) && b.privateKeyId == GetOrEmpty(vars, PrivateKeyIdKey)
      && b.clientId == GetOrEmpty(vars, ClientIdKey)
    ensures ResolveCredentials(secrets, EnvironmentUnreadable(cause)) == Reply(None, Some(EnvironmentReadFailed(cause)))
    ensures ResolveCredentials(secrets, env) == FromEnvironment(env)
  {
  }
}
