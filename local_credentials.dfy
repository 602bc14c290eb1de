/** Credential resolution of LocalCommandHandler: the encrypted and plain
    environment lookups, the `??` fold that TryFindEnvironmentKeys applies to
    each handler field, and the argument-over-environment choice of InvokeAsync.
    The operating system is a value: the platform check, the store of keys
    encrypted with WinEncryptedKeys, and the process environment. */
module LocalCredentials {
  import opened Wrappers
  import opened Strings

  /** What the operating system answers: whether it is Windows, the keys
      WinEncryptedKeys can retrieve, and the environment variables. */
  datatype Host = Host(isWindows: bool, encryptedKeys: map<string, string>, environment: map<string, string>)

  const UserKey := "DATAMINER_DEPLOY_USER"
  const PasswordKey := "DATAMINER_DEPLOY_PASSWORD"
  const UserEncryptedKey := "DATAMINER_DEPLOY_USER_ENCRYPTED"
  const PasswordEncryptedKey := "DATAMINER_DEPLOY_PASSWORD_ENCRYPTED"

  /** Environment.GetEnvironmentVariable: null when the variable is not set. */
  function GetEnvironmentVariable(host: Host, key: string): Option<string> {
    if key in host.environment then Some(host.environment[key]) else None
  }

  /** TryFindEncryptedEnvironmentKey: the retrieved key, or the empty string
      when there is none. Its type is `string`, never null. */
  function TryFindEncryptedEnvironmentKey(host: Host, key: string): (r: string)
    ensures key in host.encryptedKeys ==> r == host.encryptedKeys[key]
    ensures key !in host.encryptedKeys ==> r == ""
  {
    if key in host.encryptedKeys then host.encryptedKeys[key] else ""
  }

  /** TryFindEnvironmentKey: the variable's value, or null when it is unset,
      empty or white space. */
  function TryFindEnvironmentKey(host: Host, key: string): (r: Option<string>)
    ensures r.Some? <==> !IsNullOrWhiteSpace(GetEnvironmentVariable(host, key))
    ensures r.Some? ==> r == GetEnvironmentVariable(host, key)
  {
    var fromEnvironment := GetEnvironmentVariable(host, key);
    if IsNullOrWhiteSpace(fromEnvironment) then None else fromEnvironment
  }

  /** C#'s `a ?? b`. */
  function Coalesce(a: Option<string>, b: Option<string>): Option<string> {
    if a.Some? then a else b
  }

  /** What TryFindEnvironmentKeys leaves in one field that held `previous`:
      on Windows `encrypted ?? previous`, then `plain ?? that`. The
      encrypted lookup is a `string`, so on Windows its `??` never falls back. */
  function FromEnvironment(previous: Option<string>, host: Host, encryptedKey: string, plainKey: string): Option<string> {
    Coalesce(TryFindEnvironmentKey(host, plainKey), AfterEncrypted(previous, host, encryptedKey))
  }

  /** What the Windows step alone leaves in a field that held `previous`. */
  function AfterEncrypted(previous: Option<string>, host: Host, encryptedKey: string): Option<string> {
    if host.isWindows then Coalesce(Some(TryFindEncryptedEnvironmentKey(host, encryptedKey)), previous)
    else previous
  }

  /** A plain variable that is not blank wins over the encrypted key and the
      previous value. */
  lemma PlainVariableOverrides(previous: Option<string>, host: Host, encryptedKey: string, plainKey: string)
    requires !IsNullOrWhiteSpace(GetEnvironmentVariable(host, plainKey))
    ensures FromEnvironment(previous, host, encryptedKey, plainKey) == GetEnvironmentVariable(host, plainKey)
  {
  }

  /** A blank or missing plain variable leaves what the encrypted step stored
      on Windows, and the previous value elsewhere. */
  lemma BlankPlainVariableKeepsValue(previous: Option<string>, host: Host, encryptedKey: string, plainKey: string)
    requires IsNullOrWhiteSpace(GetEnvironmentVariable(host, plainKey))
    ensures FromEnvironment(previous, host, encryptedKey, plainKey)
      == if host.isWindows then Some(TryFindEncryptedEnvironmentKey(host, encryptedKey)) else previous
  {
  }

  /** On Windows the field is never null afterwards, even when neither the
      encrypted store nor the environment holds the key: it is then "". */
  lemma WindowsFieldNeverNull(previous: Option<string>, host: Host, encryptedKey: string, plainKey: string)
    requires host.isWindows
    ensures FromEnvironment(previous, host, encryptedKey, plainKey).Some?
    ensures encryptedKey !in host.encryptedKeys && IsNullOrWhiteSpace(GetEnvironmentVariable(host, plainKey))
      ==> FromEnvironment(previous, host, encryptedKey, plainKey) == Some("")
  {
  }

  /** Lines 121-139 of InvokeAsync: an argument that is not null or white
      space is used as it is; otherwise the field filled from the environment. */
  function ChooseCredential(argument: Option<string>, fromEnvironment: Option<string>): Option<string> {
    if !IsNullOrWhiteSpace(argument) then argument else fromEnvironment
  }

  /** The full priority of one credential: a usable argument, then a usable
      plain variable, then (Windows only) the encrypted key or "", then the
      value the field held before. */
  lemma CredentialPrecedence(argument: Option<string>, previous: Option<string>, host: Host,
                             encryptedKey: string, plainKey: string)
    ensures ChooseCredential(argument, FromEnvironment(previous, host, encryptedKey, plainKey))
      == if !IsNullOrWhiteSpace(argument) then argument
         else if !IsNullOrWhiteSpace(GetEnvironmentVariable(host, plainKey)) then GetEnvironmentVariable(host, plainKey)
         else if host.isWindows then Some(TryFindEncryptedEnvironmentKey(host, encryptedKey))
         else previous
  {
  }

  /** An argument "alice" wins over DATAMINER_DEPLOY_USER=bob, and a
      white-space argument falls through to the variable. */
  lemma CredentialPrecedenceExample(host: Host)
    requires GetEnvironmentVariable(host, UserKey) == Some("bob")
    ensures ChooseCredential(Some("alice"), FromEnvironment(None, host, UserEncryptedKey, UserKey)) == Some("alice")
    ensures ChooseCredential(Some(" \t"), FromEnvironment(None, host, UserEncryptedKey, UserKey)) == Some("bob")
  {
    assert !IsWhiteSpace("alice"[0]);
    assert !IsWhiteSpace("bob"[0]);
  }
}
