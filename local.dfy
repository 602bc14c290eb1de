/** LocalCommandHandler: executes one Automation script on the local agent.
    InvokeAsync resolves the credentials, builds the request, sends it over
    an SLNetCommunication that it releases on every path, and maps what
    happened to an exit code, logging as it goes. */
module Local {
  import opened Wrappers
  import opened Strings
  import opened Connection
  import opened SLNet
  import opened ScriptRunOptions
  import opened LocalEncoding
  import opened LocalCredentials

  /** ExitCodes; the integer behind each value is not part of this model. */
  datatype ExitCode = Ok | Fail | UnexpectedException | NotImplemented

  datatype Level = Debug | Information | Error

  /** The logger calls InvokeAsync makes, with the values they carry. */
  datatype LogEvent =
    | Starting                                  // "Starting Local..."
    | EncryptedKeyFound(key: string)            // WinEncryptedKeys holds `key`
    | EnvironmentKeyFound(overriding: bool)     // a plain variable is set; `overriding` when the user field was not blank
    | UserFromArguments                         // the user argument takes precedence
    | PasswordFromArguments                     // the password argument takes precedence
    | StartingExecution(scriptName: string)
    | MissingCredentials                        // user and/or password was null
    | ScriptOutputLine(key: string, value: string)
    | ScriptError(errorCode: int, message: string)
    | NullResponse
    | FinishedExecution(scriptName: string)
    | UnexpectedFailure(exception: Exception)   // the top-level catch
    | Finished                                  // the finally block

  datatype LogEntry = LogEntry(level: Level, event: LogEvent)

  /** The injected ILogger, as the list of what was logged to it. */
  class Logger {
    var entries: seq<LogEntry>

    constructor ()
      ensures entries == []
    {
      entries := [];
    }

    method Log(level: Level, event: LogEvent)
      modifies this
      ensures entries == old(entries) + [LogEntry(level, event)]
    {
      entries := entries + [LogEntry(level, event)];
    }
  }

  /** The handler's properties bound from the command line. */
  datatype Invocation = Invocation(scriptName: string, checkSets: bool, extendedErrorInfo: bool,
                                   isSynchronous: bool, username: Option<string>, password: Option<string>)

  const LocalHost := "localhost"

  /** The options InvokeAsync builds: the defaults, with the two bound
      choices and locking switched off. */
  function InvocationOptions(inv: Invocation): RunOptions {
    Default().(checkSets := inv.checkSets, extendedErrorInfo := inv.extendedErrorInfo,
               lockElements := false, forceLockElements := false, waitWhenLocked := true)
  }

  /** The ExecuteScriptMessage InvokeAsync sends. */
  function Request(inv: Invocation): DmsMessage {
    ExecuteScript(inv.scriptName, ActionTokens(InvocationOptions(inv), inv.isSynchronous))
  }

  /** `as ExecuteScriptResponseMessage`: null unless the reply is a response
      to script execution. */
  function AsExecuteScriptResponse(reply: Option<DmsMessage>): (r: Option<DmsMessage>)
    ensures r.Some? <==> reply.Some? && reply.value.ExecuteScriptResponse?
    ensures r.Some? ==> r == reply
  {
    if reply.Some? && reply.value.ExecuteScriptResponse? then reply else None
  }

  /** One debug entry per script output pair, in enumeration order. */
  function OutputLog(lines: seq<(string, string)>): seq<LogEntry> {
    if lines == [] then []
    else OutputLog(lines[..|lines| - 1]) + [LogEntry(Debug, ScriptOutputLine(lines[|lines| - 1].0, lines[|lines| - 1].1))]
  }

  /** One error entry per error message, each with the response's error code. */
  function ErrorLog(errorCode: int, messages: seq<string>): seq<LogEntry> {
    if messages == [] then []
    else ErrorLog(errorCode, messages[..|messages| - 1]) + [LogEntry(Error, ScriptError(errorCode, messages[|messages| - 1]))]
  }

  /** What is logged while the credentials are chosen: one entry for each
      argument that takes precedence. */
  function ArgumentLog(inv: Invocation): seq<LogEntry> {
    (if !IsNullOrWhiteSpace(inv.username) then [LogEntry(Debug, UserFromArguments)] else [])
    + (if !IsNullOrWhiteSpace(inv.password) then [LogEntry(Debug, PasswordFromArguments)] else [])
  }

  /** The entry TryFindEncryptedEnvironmentKey logs: one when the key is stored. */
  function EncryptedLookupLog(host: Host, key: string): seq<LogEntry> {
    if key in host.encryptedKeys then [LogEntry(Debug, EncryptedKeyFound(key))] else []
  }

  /** The entry TryFindEnvironmentKey logs: one when the variable is usable,
      reporting an override exactly when the user field `userField` is not
      blank at that moment, for the password lookup as well. */
  function EnvironmentLookupLog(host: Host, key: string, userField: Option<string>): seq<LogEntry> {
    if TryFindEnvironmentKey(host, key).Some? then [LogEntry(Debug, EnvironmentKeyFound(!IsNullOrWhiteSpace(userField)))] else []
  }

  /** What the Windows-only lookups of the two encrypted keys log. */
  function WindowsLookupLog(host: Host): seq<LogEntry> {
    if host.isWindows then EncryptedLookupLog(host, UserEncryptedKey) + EncryptedLookupLog(host, PasswordEncryptedKey) else []
  }

  /** What TryFindEnvironmentKeys logs over a user field that held
      `previousUser`: the two encrypted lookups on Windows, then the plain
      user lookup, then the plain password lookup, which sees the user field
      as the plain user lookup left it. */
  function LookupLog(previousUser: Option<string>, host: Host): seq<LogEntry> {
    WindowsLookupLog(host)
    + EnvironmentLookupLog(host, UserKey, AfterEncrypted(previousUser, host, UserEncryptedKey))
    + EnvironmentLookupLog(host, PasswordKey, FromEnvironment(previousUser, host, UserEncryptedKey, UserKey))
  }

  /** What is logged before the credentials are checked, for the entries
      `lookups` of the environment lookups. */
  function OpeningLog(inv: Invocation, lookups: seq<LogEntry>): seq<LogEntry> {
    [LogEntry(Debug, Starting)] + lookups + ArgumentLog(inv) + [LogEntry(Information, StartingExecution(inv.scriptName))]
  }

  /** What one run of InvokeAsync amounts to: its exit code, the calls it
      makes on the connection library and what it logs. */
  datatype RunResult = RunResult(exit: ExitCode, events: seq<Event>, log: seq<LogEntry>)

  /** How a reply is interpreted: a reply that is not a script response is
      a null response; the script output is logged; an error flag fails the
      run after one entry per error message, or throws when the message list
      is null; otherwise the run succeeds. */
  function Interpretation(inv: Invocation, reply: Option<DmsMessage>): RunResult {
    var response := AsExecuteScriptResponse(reply);
    if response.None? then
      RunResult(Fail, [], [LogEntry(Error, NullResponse)])
    else
      var r := response.value;
      var output := OutputLog(if r.scriptOutput.Some? then r.scriptOutput.value else []);
      if !r.hadError then
        RunResult(Ok, [], output + [LogEntry(Information, FinishedExecution(inv.scriptName))])
      else if r.errorMessages.None? then
        RunResult(UnexpectedException, [], output + [LogEntry(Error, UnexpectedFailure(NullReference))])
      else
        RunResult(Fail, [], output + ErrorLog(r.errorCode, r.errorMessages.value))
  }

  /** What happens inside the `using` block once the connection is set up:
      the request is sent and the reply interpreted, and the connection is
      disposed whichever way the block is left. */
  function SessionRun(inv: Invocation, t: Transport): RunResult {
    var session := [SendAsync([Request(inv)], SendTimeout), Event.Dispose];
    match t.send
    case Failure(e) =>
      RunResult(UnexpectedException, session, [LogEntry(Error, UnexpectedFailure(e))])
    case Success(replies) =>
      var interpreted := Interpretation(inv, FirstOrDefault(replies));
      RunResult(interpreted.exit, session, interpreted.log)
  }

  /** Lines 158-218 of InvokeAsync with the credentials known: open the
      connection to the local agent and, once it is set up, run the session.
      A setup that throws leaves the block before any request is sent. */
  function ConnectedRun(inv: Invocation, user: string, password: string, t: Transport): RunResult {
    var setup := SetupTrace(LocalHost, user, password, t);
    var setupError := SetupError(LocalHost, t);
    if setupError.Some? then
      RunResult(UnexpectedException, setup, [LogEntry(Error, UnexpectedFailure(setupError.value))])
    else
      var session := SessionRun(inv, t);
      RunResult(session.exit, setup + session.events, session.log)
  }

  /** The specification of InvokeAsync, for the bound properties `inv`, the
      entries `lookups` and the fields `userFromEnv` and `pwFromEnv` as
      TryFindEnvironmentKeys logged and left them, and the library's answers `t`. */
  function ExpectedRun(inv: Invocation, lookups: seq<LogEntry>, userFromEnv: Option<string>, pwFromEnv: Option<string>,
                       t: Transport): RunResult {
    var user := ChooseCredential(inv.username, userFromEnv);
    var password := ChooseCredential(inv.password, pwFromEnv);
    var closing := [LogEntry(Debug, Finished)];
    if user.None? || password.None? then
      RunResult(Fail, [], OpeningLog(inv, lookups) + [LogEntry(Error, MissingCredentials)] + closing)
    else
      var connected := ConnectedRun(inv, user.value, password.value, t);
      RunResult(connected.exit, connected.events, OpeningLog(inv, lookups) + connected.log + closing)
  }

  lemma ConcatAssociates(a: seq<LogEntry>, b: seq<LogEntry>, c: seq<LogEntry>, d: seq<LogEntry>)
    ensures a + b + c + d == a + (b + c + d)
  {
  }

  /** The opening entries, logged one call at a time, are OpeningLog. */
  lemma OpeningLogShape(before: seq<LogEntry>, inv: Invocation, lookups: seq<LogEntry>, after: seq<LogEntry>)
    requires after == before + [LogEntry(Debug, Starting)] + lookups + ArgumentLog(inv) + [LogEntry(Information, StartingExecution(inv.scriptName))]
    ensures after == before + OpeningLog(inv, lookups)
  {
  }

  class LocalCommandHandler {
    const logger: Logger
    var pwFromEnv: Option<string>
    var userFromEnv: Option<string>
    var checkSets: bool
    var extendedErrorInfo: bool
    var isSynchronous: bool
    var password: Option<string>
    var scriptName: string
    var username: Option<string>

    /** A handler with its properties bound and nothing read from the environment yet. */
    constructor (logger: Logger, scriptName: string, checkSets: bool, extendedErrorInfo: bool,
                 isSynchronous: bool, username: Option<string>, password: Option<string>)
      ensures this.logger == logger
      ensures Arguments() == Invocation(scriptName, checkSets, extendedErrorInfo, isSynchronous, username, password)
      ensures userFromEnv.None? && pwFromEnv.None?
    {
      this.logger := logger;
      this.scriptName := scriptName;
      this.checkSets := checkSets;
      this.extendedErrorInfo := extendedErrorInfo;
      this.isSynchronous := isSynchronous;
      this.username := username;
      this.password := password;
      userFromEnv := None;
      pwFromEnv := None;
    }

    /** The bound properties, which nothing here changes. */
    function Arguments(): Invocation
      reads this`scriptName, this`checkSets, this`extendedErrorInfo, this`isSynchronous, this`username, this`password
    {
      Invocation(scriptName, checkSets, extendedErrorInfo, isSynchronous, username, password)
    }

    /** The synchronous entry point, never used. */
    method Invoke() returns (code: ExitCode)
      ensures code == NotImplemented
    {
      code := NotImplemented;
    }

    /** Fills `userFromEnv` and `pwFromEnv`: on Windows from the encrypted
        keys first, then from the plain variables where those are set,
        logging one entry per key found. */
    method TryFindEnvironmentKeys(host: Host)
      modifies this`userFromEnv, this`pwFromEnv, logger
      ensures userFromEnv == FromEnvironment(old(userFromEnv), host, UserEncryptedKey, UserKey)
      ensures pwFromEnv == FromEnvironment(old(pwFromEnv), host, PasswordEncryptedKey, PasswordKey)
      ensures logger.entries == old(logger.entries) + LookupLog(old(userFromEnv), host)
    {
      ghost var before := logger.entries;
      ghost var previousUser := userFromEnv;
      if host.isWindows {
        var encryptedUser := TryFindEncryptedEnvironmentKey(host, UserEncryptedKey);
        userFromEnv := Coalesce(Some(encryptedUser), userFromEnv);
        var encryptedPassword := TryFindEncryptedEnvironmentKey(host, PasswordEncryptedKey);
        pwFromEnv := Coalesce(Some(encryptedPassword), pwFromEnv);
      }
      assert logger.entries == before + WindowsLookupLog(host);
      ghost var afterEncrypted := logger.entries;
      var plainUser := TryFindEnvironmentKey(host, UserKey);
      userFromEnv := Coalesce(plainUser, userFromEnv);
      var plainPassword := TryFindEnvironmentKey(host, PasswordKey);
      pwFromEnv := Coalesce(plainPassword, pwFromEnv);
      assert logger.entries == afterEncrypted
        + EnvironmentLookupLog(host, UserKey, AfterEncrypted(previousUser, host, UserEncryptedKey))
        + EnvironmentLookupLog(host, PasswordKey, FromEnvironment(previousUser, host, UserEncryptedKey, UserKey));
      ConcatAssociates(before, WindowsLookupLog(host),
                       EnvironmentLookupLog(host, UserKey, AfterEncrypted(previousUser, host, UserEncryptedKey)),
                       EnvironmentLookupLog(host, PasswordKey, FromEnvironment(previousUser, host, UserEncryptedKey, UserKey)));
    }

    /** TryFindEncryptedEnvironmentKey: the stored key or "", with a debug
        entry when the key is stored. */
    method TryFindEncryptedEnvironmentKey(host: Host, key: string) returns (r: string)
      modifies logger
      ensures r == LocalCredentials.TryFindEncryptedEnvironmentKey(host, key)
      ensures logger.entries == old(logger.entries) + EncryptedLookupLog(host, key)
    {
      if key in host.encryptedKeys {
        logger.Log(Debug, EncryptedKeyFound(key));
        return host.encryptedKeys[key];
      }
      return "";
    }

    /** TryFindEnvironmentKey: the usable value of the variable or null; when
        it is usable, a debug entry that says whether the user field is
        being overridden. */
    method TryFindEnvironmentKey(host: Host, key: string) returns (r: Option<string>)
      modifies logger
      ensures r == LocalCredentials.TryFindEnvironmentKey(host, key)
      ensures logger.entries == old(logger.entries) + EnvironmentLookupLog(host, key, userFromEnv)
    {
      var fromEnvironment := GetEnvironmentVariable(host, key);
      if IsNullOrWhiteSpace(fromEnvironment) {
        return None;
      }
      logger.Log(Debug, EnvironmentKeyFound(!IsNullOrWhiteSpace(userFromEnv)));
      return fromEnvironment;
    }

    /** InvokeAsync against the operating system `host` and the library
        behind `network`: it updates the two environment fields, and its exit
        code, library calls and log are those of ExpectedRun. */
    method InvokeAsync(host: Host, network: Network) returns (exit: ExitCode)
      modifies this`userFromEnv, this`pwFromEnv, logger, network
      ensures userFromEnv == FromEnvironment(old(userFromEnv), host, UserEncryptedKey, UserKey)
      ensures pwFromEnv == FromEnvironment(old(pwFromEnv), host, PasswordEncryptedKey, PasswordKey)
      ensures var run := ExpectedRun(Arguments(), LookupLog(old(userFromEnv), host), userFromEnv, pwFromEnv, network.transport);
        && exit == run.exit
        && network.trace == old(network.trace) + run.events
        && logger.entries == old(logger.entries) + run.log
    {
      ghost var before := logger.entries;
      ghost var lookups := LookupLog(userFromEnv, host);
      var actualUser, actualPassword := Prepare(host);
      ghost var inv := Arguments();

      if actualUser.None? || actualPassword.None? {
        logger.Log(Error, MissingCredentials);
        logger.Log(Debug, Finished);
        ConcatAssociates(before, OpeningLog(inv, lookups), [LogEntry(Error, MissingCredentials)], [LogEntry(Debug, Finished)]);
        return Fail;
      }

      exit := Connect(actualUser.value, actualPassword.value, network);
      logger.Log(Debug, Finished);
      ghost var connected := ConnectedRun(inv, actualUser.value, actualPassword.value, network.transport);
      ConcatAssociates(before, OpeningLog(inv, lookups), connected.log, [LogEntry(Debug, Finished)]);
    }

    /** Lines 112-141 of InvokeAsync: log the start, fill the environment
        fields, choose the credentials and log the start of the execution. */
    method Prepare(host: Host) returns (actualUser: Option<string>, actualPassword: Option<string>)
      modifies this`userFromEnv, this`pwFromEnv, logger
      ensures userFromEnv == FromEnvironment(old(userFromEnv), host, UserEncryptedKey, UserKey)
      ensures pwFromEnv == FromEnvironment(old(pwFromEnv), host, PasswordEncryptedKey, PasswordKey)
      ensures actualUser == ChooseCredential(username, userFromEnv)
      ensures actualPassword == ChooseCredential(password, pwFromEnv)
      ensures logger.entries == old(logger.entries) + OpeningLog(Arguments(), LookupLog(old(userFromEnv), host))
    {
      ghost var before := logger.entries;
      ghost var inv := Arguments();
      ghost var lookups := LogLookups(host);
      actualUser, actualPassword := ChooseCredentials();
      logger.Log(Information, StartingExecution(scriptName));
      OpeningLogShape(before, inv, lookups, logger.entries);
    }

    /** Lines 112-117 of InvokeAsync: the starting entry, then the lookups. */
    method LogLookups(host: Host) returns (ghost lookups: seq<LogEntry>)
      modifies this`userFromEnv, this`pwFromEnv, logger
      ensures lookups == LookupLog(old(userFromEnv), host)
      ensures userFromEnv == FromEnvironment(old(userFromEnv), host, UserEncryptedKey, UserKey)
      ensures pwFromEnv == FromEnvironment(old(pwFromEnv), host, PasswordEncryptedKey, PasswordKey)
      ensures logger.entries == old(logger.entries) + [LogEntry(Debug, Starting)] + lookups
    {
      lookups := LookupLog(userFromEnv, host);
      logger.Log(Debug, Starting);
      TryFindEnvironmentKeys(host);
    }

    /** Lines 118-139 of InvokeAsync: each credential from its argument when
        that is not null or white space, else from the environment field. */
    method ChooseCredentials() returns (actualUser: Option<string>, actualPassword: Option<string>)
      modifies logger
      ensures actualUser == ChooseCredential(username, userFromEnv)
      ensures actualPassword == ChooseCredential(password, pwFromEnv)
      ensures logger.entries == old(logger.entries) + ArgumentLog(Arguments())
    {
      if !IsNullOrWhiteSpace(username) {
        actualUser := username;
        logger.Log(Debug, UserFromArguments);
      } else {
        actualUser := userFromEnv;
      }

      if !IsNullOrWhiteSpace(password) {
        actualPassword := password;
        logger.Log(Debug, PasswordFromArguments);
      } else {
        actualPassword := pwFromEnv;
      }
    }

    /** Open the connection and, if that succeeds, run the `using` block;
        an exception of the setup is caught and logged. */
    method Connect(user: string, password: string, network: Network) returns (exit: ExitCode)
      modifies logger, network
      ensures var run := ConnectedRun(Arguments(), user, password, network.transport);
        && exit == run.exit
        && network.trace == old(network.trace) + run.events
        && logger.entries == old(logger.entries) + run.log
    {
      var connected := SLNetCommunication.GetConnection(LocalHost, user, password, network);
      if connected.Failure? {
        logger.Log(Error, UnexpectedFailure(connected.error));
        return UnexpectedException;
      }
      exit := ExecuteOver(connected.value);
    }

    /** The `using` block: build the option tokens, send the request,
        interpret the reply, and dispose the connection however the block
        is left. */
    method ExecuteOver(slnet: SLNetCommunication) returns (exit: ExitCode)
      modifies slnet.connection, slnet.connection.network, logger
      ensures var run := SessionRun(Arguments(), slnet.connection.network.transport);
        && exit == run.exit
        && slnet.connection.network.trace == old(slnet.connection.network.trace) + run.events
        && logger.entries == old(logger.entries) + run.log
        && slnet.connection.disposed
    {
      var runOptions := InvocationOptions(Arguments());
      var actionArray: seq<string> := [];
      actionArray := actionArray + [ParseRunFlags(runOptions)];
      if runOptions.checkSets {
        actionArray := actionArray + [CheckSetsTrue];
      } else {
        actionArray := actionArray + [CheckSetsFalse];
      }
      if runOptions.extendedErrorInfo {
        actionArray := actionArray + [ExtendedErrorInfoToken];
      }
      if isSynchronous {
        actionArray := actionArray + [DeferFalse];
      } else {
        actionArray := actionArray + [DeferTrue];
      }
      assert actionArray == ActionTokens(runOptions, isSynchronous);

      var sent := slnet.SendSingleResponseMessage(ExecuteScript(scriptName, actionArray));
      if sent.Failure? {
        slnet.Dispose();
        logger.Log(Error, UnexpectedFailure(sent.error));
        return UnexpectedException;
      }
      exit := Interpret(sent.value);
      slnet.Dispose();
    }

    /** Lines 193-217 of InvokeAsync: interpret the reply and log what it says. */
    method Interpret(reply: Option<DmsMessage>) returns (exit: ExitCode)
      modifies logger
      ensures exit == Interpretation(Arguments(), reply).exit
      ensures logger.entries == old(logger.entries) + Interpretation(Arguments(), reply).log
    {
      var response := AsExecuteScriptResponse(reply);
      if response.None? {
        logger.Log(Error, NullResponse);
        return Fail;
      }
      var r := response.value;
      if r.scriptOutput.Some? {
        LogScriptOutput(r.scriptOutput.value);
      }
      if r.hadError {
        if r.errorMessages.None? {
          // foreach over a null ErrorMessages throws
          logger.Log(Error, UnexpectedFailure(NullReference));
          return UnexpectedException;
        }
        LogScriptErrors(r.errorCode, r.errorMessages.value);
        return Fail;
      }
      logger.Log(Information, FinishedExecution(scriptName));
      return Ok;
    }

    /** The loop over ScriptOutput: one debug entry per pair. */
    method LogScriptOutput(lines: seq<(string, string)>)
      modifies logger
      ensures logger.entries == old(logger.entries) + OutputLog(lines)
    {
      for i := 0 to |lines|
        invariant logger.entries == old(logger.entries) + OutputLog(lines[..i])
      {
        logger.Log(Debug, ScriptOutputLine(lines[i].0, lines[i].1));
        assert lines[..i + 1][..i] == lines[..i];
      }
      assert lines[..|lines|] == lines;
    }

    /** The loop over ErrorMessages: one error entry per message. */
    method LogScriptErrors(errorCode: int, messages: seq<string>)
      modifies logger
      ensures logger.entries == old(logger.entries) + ErrorLog(errorCode, messages)
    {
      for i := 0 to |messages|
        invariant logger.entries == old(logger.entries) + ErrorLog(errorCode, messages[..i])
      {
        logger.Log(Error, ScriptError(errorCode, messages[i]));
        assert messages[..i + 1][..i] == messages[..i];
      }
      assert messages[..|messages|] == messages;
    }
  }

  /** Both credentials are known once arguments and environment are combined. */
  predicate HasCredentials(inv: Invocation, userFromEnv: Option<string>, pwFromEnv: Option<string>) {
    ChooseCredential(inv.username, userFromEnv).Some? && ChooseCredential(inv.password, pwFromEnv).Some?
  }

  /** The request is sent: the credentials are known and the connection
      was set up without an exception. */
  predicate SendsRequest(inv: Invocation, userFromEnv: Option<string>, pwFromEnv: Option<string>, t: Transport) {
    HasCredentials(inv, userFromEnv, pwFromEnv) && SetupError(LocalHost, t).None?
  }

  /** The reply as InvokeAsync sees it once the send completed: the first
      reply cast to a script response. */
  function Reply(t: Transport): (r: Option<DmsMessage>)
    requires t.send.Success?
    ensures r.Some? ==> r.value.ExecuteScriptResponse? && t.send.value != [] && r.value == t.send.value[0]
    ensures r.None? ==> t.send.value == [] || !t.send.value[0].ExecuteScriptResponse?
  {
    AsExecuteScriptResponse(FirstOrDefault(t.send.value))
  }

  /** The local agent is not a cloud host, so the cloud guard lets it through. */
  lemma LocalHostIsNotCloud()
    ensures !Contains(LocalHost, CloudDomain)
  {
  }

  /** The lookups log one debug entry per key found: each stored encrypted
      key on Windows and each usable plain variable. */
  lemma LookupLogEntries(previousUser: Option<string>, host: Host)
    ensures forall i :: 0 <= i < |LookupLog(previousUser, host)| ==> LookupLog(previousUser, host)[i].level == Debug
    ensures |LookupLog(previousUser, host)|
      == (if host.isWindows && UserEncryptedKey in host.encryptedKeys then 1 else 0)
       + (if host.isWindows && PasswordEncryptedKey in host.encryptedKeys then 1 else 0)
       + (if TryFindEnvironmentKey(host, UserKey).Some? then 1 else 0)
       + (if TryFindEnvironmentKey(host, PasswordKey).Some? then 1 else 0)
  {
  }

  /** The plain password lookup reports on the user field: off Windows, with
      both variables set and no previous user, the password entry announces
      an override because the user lookup has just filled the user field. */
  lemma PasswordLookupReadsUserField(host: Host)
    requires !host.isWindows
    requires TryFindEnvironmentKey(host, UserKey).Some? && TryFindEnvironmentKey(host, PasswordKey).Some?
    ensures LookupLog(None, host) == [LogEntry(Debug, EnvironmentKeyFound(false)), LogEntry(Debug, EnvironmentKeyFound(true))]
  {
  }

  /** Every script output pair gets its own entry, in order. */
  lemma {:induction false} OutputLogEntries(lines: seq<(string, string)>)
    ensures |OutputLog(lines)| == |lines|
    ensures forall i | 0 <= i < |lines| :: OutputLog(lines)[i] == LogEntry(Debug, ScriptOutputLine(lines[i].0, lines[i].1))
  {
    if lines != [] {
      OutputLogEntries(lines[..|lines| - 1]);
    }
  }

  /** Every error message gets its own entry with the response's error code, in order. */
  lemma {:induction false} ErrorLogEntries(errorCode: int, messages: seq<string>)
    ensures |ErrorLog(errorCode, messages)| == |messages|
    ensures forall i | 0 <= i < |messages| :: ErrorLog(errorCode, messages)[i] == LogEntry(Error, ScriptError(errorCode, messages[i]))
  {
    if messages != [] {
      ErrorLogEntries(errorCode, messages[..|messages| - 1]);
    }
  }

  /** The request names the script and carries OPTIONS:0 first (no locking,
      wait when locked), CHECKSETS:TRUE exactly when CheckSets is set,
      EXTENDED_ERROR_INFO exactly when asked for, and DEFER:FALSE last exactly
      for a synchronous run. */
  lemma RequestOptions(inv: Invocation)
    ensures Request(inv).ExecuteScript? && Request(inv).scriptName == inv.scriptName
    ensures var options := Request(inv).options;
      && |options| == (if inv.extendedErrorInfo then 4 else 3)
      && options[0] == "OPTIONS:0"
      && (CheckSetsTrue in options <==> inv.checkSets)
      && (CheckSetsFalse in options <==> !inv.checkSets)
      && (ExtendedErrorInfoToken in options <==> inv.extendedErrorInfo)
      && options[|options| - 1] == (if inv.isSynchronous then DeferFalse else DeferTrue)
  {
    InvokeOptionsEncodeToZero(inv.checkSets, inv.extendedErrorInfo);
    ActionTokensLayout(InvocationOptions(inv), inv.isSynchronous);
  }

  /** No call reaches the connection library exactly when a credential is
      missing; the run then fails and says so in the log. */
  lemma NoCallsWithoutCredentials(inv: Invocation, lookups: seq<LogEntry>, userFromEnv: Option<string>, pwFromEnv: Option<string>,
    t: Transport)
    ensures var run := ExpectedRun(inv, lookups, userFromEnv, pwFromEnv, t);
      && (run.events == [] <==> !HasCredentials(inv, userFromEnv, pwFromEnv))
      && (!HasCredentials(inv, userFromEnv, pwFromEnv) ==> run.exit == Fail)
      && (!HasCredentials(inv, userFromEnv, pwFromEnv) ==> LogEntry(Error, MissingCredentials) in run.log)
  {
    LocalHostIsNotCloud();
    var run := ExpectedRun(inv, lookups, userFromEnv, pwFromEnv, t);
    if HasCredentials(inv, userFromEnv, pwFromEnv) {
      assert run.events[0] == Construct(LocalHost);
    } else {
      assert run.log[|OpeningLog(inv, lookups)|] == LogEntry(Error, MissingCredentials);
    }
  }

  /** A run exits with Ok exactly when the request was sent and answered by
      a script response whose error flag is clear. */
  lemma ExitOk(inv: Invocation, lookups: seq<LogEntry>, userFromEnv: Option<string>, pwFromEnv: Option<string>,
    t: Transport)
    ensures ExpectedRun(inv, lookups, userFromEnv, pwFromEnv, t).exit == Ok
      <==> SendsRequest(inv, userFromEnv, pwFromEnv, t) && t.send.Success?
           && Reply(t).Some? && !Reply(t).value.hadError
  {
  }

  /** A run exits with Fail exactly when a credential is missing, or the
      request was sent and the reply was not a script response, or the
      response reported errors together with its list of messages. */
  lemma ExitFail(inv: Invocation, lookups: seq<LogEntry>, userFromEnv: Option<string>, pwFromEnv: Option<string>,
    t: Transport)
    ensures ExpectedRun(inv, lookups, userFromEnv, pwFromEnv, t).exit == Fail
      <==> || !HasCredentials(inv, userFromEnv, pwFromEnv)
           || (SendsRequest(inv, userFromEnv, pwFromEnv, t) && t.send.Success?
               && (Reply(t).None? || (Reply(t).value.hadError && Reply(t).value.errorMessages.Some?)))
  {
  }

  /** A run exits with UnexpectedException exactly when the credentials are
      known and the setup throws, the send throws, or the response reports
      errors with a null list of messages. */
  lemma ExitUnexpectedException(inv: Invocation, lookups: seq<LogEntry>, userFromEnv: Option<string>, pwFromEnv: Option<string>,
    t: Transport)
    ensures ExpectedRun(inv, lookups, userFromEnv, pwFromEnv, t).exit == UnexpectedException
      <==> && HasCredentials(inv, userFromEnv, pwFromEnv)
           && (|| SetupError(LocalHost, t).Some?
               || t.send.Failure?
               || (Reply(t).Some? && Reply(t).value.hadError && Reply(t).value.errorMessages.None?))
  {
  }

  /** InvokeAsync never answers NotImplemented; that is Invoke's code. */
  lemma NeverNotImplemented(inv: Invocation, lookups: seq<LogEntry>, userFromEnv: Option<string>, pwFromEnv: Option<string>,
    t: Transport)
    ensures ExpectedRun(inv, lookups, userFromEnv, pwFromEnv, t).exit != NotImplemented
  {
  }

  /** The setup calls neither send nor dispose. */
  lemma SetupMakesNoSessionCalls(hostname: string, user: string, password: string, t: Transport)
    ensures forall e | e in SetupTrace(hostname, user, password, t) :: !e.SendAsync? && !e.Dispose?
  {
  }

  /** Calls that neither send nor dispose, followed or not by one send and
      one dispose, hold that many sends of `m` and disposes. */
  lemma SessionCallCounts(setup: seq<Event>, m: DmsMessage)
    requires forall e | e in setup :: !e.SendAsync? && !e.Dispose?
    ensures multiset(setup)[Event.Dispose] == 0
    ensures multiset(setup)[SendAsync([m], SendTimeout)] == 0
    ensures var events := setup + [SendAsync([m], SendTimeout), Event.Dispose];
      && multiset(events)[Event.Dispose] == 1
      && multiset(events)[SendAsync([m], SendTimeout)] == 1
  {
    assert Event.Dispose !in setup;
    assert SendAsync([m], SendTimeout) !in setup;
    assert multiset(setup + [SendAsync([m], SendTimeout), Event.Dispose])
      == multiset(setup) + multiset{SendAsync([m], SendTimeout), Event.Dispose};
  }

  /** With the credentials known: once the setup completes, one request is
      sent and the connection disposed once, as the last call; a setup that
      throws sends and disposes nothing. */
  lemma ConnectedRunReleases(inv: Invocation, user: string, password: string, t: Transport)
    ensures var events := ConnectedRun(inv, user, password, t).events;
      var sent := SetupError(LocalHost, t).None?;
      && multiset(events)[Event.Dispose] == (if sent then 1 else 0)
      && multiset(events)[SendAsync([Request(inv)], SendTimeout)] == (if sent then 1 else 0)
      && (sent ==> events[|events| - 1] == Event.Dispose)
  {
    var setup := SetupTrace(LocalHost, user, password, t);
    SetupMakesNoSessionCalls(LocalHost, user, password, t);
    SessionCallCounts(setup, Request(inv));
  }

  /** With both credentials known, the run is the connection attempt with
      them, between the opening and the closing entries. */
  lemma CredentialedRun(inv: Invocation, lookups: seq<LogEntry>, userFromEnv: Option<string>, pwFromEnv: Option<string>,
    t: Transport)
    requires HasCredentials(inv, userFromEnv, pwFromEnv)
    ensures var run := ExpectedRun(inv, lookups, userFromEnv, pwFromEnv, t);
      var connected := ConnectedRun(inv, ChooseCredential(inv.username, userFromEnv).value,
                                    ChooseCredential(inv.password, pwFromEnv).value, t);
      && run.exit == connected.exit
      && run.events == connected.events
      && run.log == OpeningLog(inv, lookups) + connected.log + [LogEntry(Debug, Finished)]
  {
  }

  /** Once the connection is set up, exactly one request is sent and the
      connection is disposed exactly once, as the last call; when the setup
      throws, or no connection is attempted, nothing is sent or disposed. */
  lemma ConnectionReleased(inv: Invocation, lookups: seq<LogEntry>, userFromEnv: Option<string>, pwFromEnv: Option<string>,
    t: Transport)
    ensures var events := ExpectedRun(inv, lookups, userFromEnv, pwFromEnv, t).events;
      && multiset(events)[Event.Dispose] == (if SendsRequest(inv, userFromEnv, pwFromEnv, t) then 1 else 0)
      && multiset(events)[SendAsync([Request(inv)], SendTimeout)] == (if SendsRequest(inv, userFromEnv, pwFromEnv, t) then 1 else 0)
      && (SendsRequest(inv, userFromEnv, pwFromEnv, t) ==> events[|events| - 1] == Event.Dispose)
  {
    if HasCredentials(inv, userFromEnv, pwFromEnv) {
      var user := ChooseCredential(inv.username, userFromEnv).value;
      var password := ChooseCredential(inv.password, pwFromEnv).value;
      CredentialedRun(inv, lookups, userFromEnv, pwFromEnv, t);
      ConnectedRunReleases(inv, user, password, t);
    }
  }

  /** A connection attempt to the local agent starts by constructing the
      connection and, when that completes, authenticates with the chosen
      credentials. */
  lemma ConnectedRunAuthenticates(inv: Invocation, user: string, password: string, t: Transport)
    ensures var events := ConnectedRun(inv, user, password, t).events;
      && events != [] && events[0] == Construct(LocalHost)
      && (t.construct.Completes? ==> Event.Authenticate(user, password) in events)
  {
    LocalHostIsNotCloud();
    var events := ConnectedRun(inv, user, password, t).events;
    assert events[0] == Construct(LocalHost);
    if t.construct.Completes? {
      assert events[4] == Event.Authenticate(user, password);
    }
  }

  /** On Windows the credentials are never missing: lookups of keys that are
      nowhere to be found leave "" in both fields, so InvokeAsync goes on to
      connect, and without arguments it authenticates as "" with password "". */
  lemma WindowsAlwaysConnects(inv: Invocation, previousUser: Option<string>, previousPassword: Option<string>,
                              host: Host, t: Transport)
    requires host.isWindows
    ensures var userFromEnv := FromEnvironment(previousUser, host, UserEncryptedKey, UserKey);
      var pwFromEnv := FromEnvironment(previousPassword, host, PasswordEncryptedKey, PasswordKey);
      var run := ExpectedRun(inv, LookupLog(previousUser, host), userFromEnv, pwFromEnv, t);
      && HasCredentials(inv, userFromEnv, pwFromEnv)
      && run.events != [] && run.events[0] == Construct(LocalHost)
      && (&& IsNullOrWhiteSpace(inv.username) && IsNullOrWhiteSpace(inv.password)
          && UserEncryptedKey !in host.encryptedKeys && PasswordEncryptedKey !in host.encryptedKeys
          && IsNullOrWhiteSpace(GetEnvironmentVariable(host, UserKey))
          && IsNullOrWhiteSpace(GetEnvironmentVariable(host, PasswordKey))
          && t.construct.Completes?
          ==> Event.Authenticate("", "") in run.events)
  {
    WindowsFieldNeverNull(previousUser, host, UserEncryptedKey, UserKey);
    WindowsFieldNeverNull(previousPassword, host, PasswordEncryptedKey, PasswordKey);
    var userFromEnv := FromEnvironment(previousUser, host, UserEncryptedKey, UserKey);
    var pwFromEnv := FromEnvironment(previousPassword, host, PasswordEncryptedKey, PasswordKey);
    var user := ChooseCredential(inv.username, userFromEnv).value;
    var password := ChooseCredential(inv.password, pwFromEnv).value;
    ConnectedRunAuthenticates(inv, user, password, t);
    assert ExpectedRun(inv, LookupLog(previousUser, host), userFromEnv, pwFromEnv, t).events == ConnectedRun(inv, user, password, t).events;
  }

  /** Elsewhere than on Windows, a handler with no usable user argument and
      no usable DATAMINER_DEPLOY_USER variable fails without any call. */
  lemma UnconfiguredElsewhereFails(inv: Invocation, previousPassword: Option<string>, host: Host, t: Transport)
    requires !host.isWindows
    requires IsNullOrWhiteSpace(inv.username) && IsNullOrWhiteSpace(GetEnvironmentVariable(host, UserKey))
    ensures var run := ExpectedRun(inv, LookupLog(None, host), FromEnvironment(None, host, UserEncryptedKey, UserKey),
                                   FromEnvironment(previousPassword, host, PasswordEncryptedKey, PasswordKey), t);
      run.exit == Fail && run.events == []
  {
  }

  /** When the request is sent and answered, the run's exit code is the
      interpretation's and its log is the opening entries, what the
      interpretation logs, and the closing entry. */
  lemma AnsweredRun(inv: Invocation, lookups: seq<LogEntry>, userFromEnv: Option<string>, pwFromEnv: Option<string>,
    t: Transport)
    requires SendsRequest(inv, userFromEnv, pwFromEnv, t) && t.send.Success?
    ensures var run := ExpectedRun(inv, lookups, userFromEnv, pwFromEnv, t);
      var interpreted := Interpretation(inv, FirstOrDefault(t.send.value));
      && run.exit == interpreted.exit
      && run.log == OpeningLog(inv, lookups) + interpreted.log + [LogEntry(Debug, Finished)]
  {
  }

  /** A log that ends with the error entries of `messages` and a last
      entry holds each message's entry, in order, just before that last one. */
  lemma ErrorEntriesBeforeLast(log: seq<LogEntry>, prefix: seq<LogEntry>, errorCode: int, messages: seq<string>, last: LogEntry)
    requires log == prefix + ErrorLog(errorCode, messages) + [last]
    ensures |log| > |messages| && log[|log| - 1] == last
    ensures forall i | 0 <= i < |messages| ::
      log[|log| - 1 - |messages| + i] == LogEntry(Error, ScriptError(errorCode, messages[i]))
  {
    var errors := ErrorLog(errorCode, messages);
    ErrorLogEntries(errorCode, messages);
    forall i | 0 <= i < |messages|
      ensures log[|log| - 1 - |messages| + i] == LogEntry(Error, ScriptError(errorCode, messages[i]))
    {
      assert log[|prefix| + i] == errors[i];
    }
  }

  /** A script response that reports errors with its messages is logged as
      its output followed by one error entry per message, and fails. */
  lemma InterpretationReportsErrors(inv: Invocation, reply: Option<DmsMessage>)
    requires reply.Some? && reply.value.ExecuteScriptResponse?
    requires reply.value.hadError && reply.value.errorMessages.Some?
    ensures var r := reply.value;
      var interpreted := Interpretation(inv, reply);
      && interpreted.exit == Fail
      && interpreted.log == OutputLog(if r.scriptOutput.Some? then r.scriptOutput.value else [])
                            + ErrorLog(r.errorCode, r.errorMessages.value)
  {
  }

  /** A response that reports errors with its messages ends the log with one
      error entry per message, in order and with the response's error code,
      followed by the closing entry, and the run fails. */
  lemma ScriptErrorsReported(inv: Invocation, lookups: seq<LogEntry>, userFromEnv: Option<string>, pwFromEnv: Option<string>,
    t: Transport)
    requires SendsRequest(inv, userFromEnv, pwFromEnv, t) && t.send.Success?
    requires Reply(t).Some? && Reply(t).value.hadError && Reply(t).value.errorMessages.Some?
    ensures var run := ExpectedRun(inv, lookups, userFromEnv, pwFromEnv, t);
      var messages := Reply(t).value.errorMessages.value;
      && run.exit == Fail
      && |run.log| > |messages|
      && (forall i | 0 <= i < |messages| ::
            run.log[|run.log| - 1 - |messages| + i] == LogEntry(Error, ScriptError(Reply(t).value.errorCode, messages[i])))
      && run.log[|run.log| - 1] == LogEntry(Debug, Finished)
  {
    var reply := FirstOrDefault(t.send.value);
    assert Reply(t) == reply;
    var r := reply.value;
    AnsweredRun(inv, lookups, userFromEnv, pwFromEnv, t);
    InterpretationReportsErrors(inv, reply);
    var output := OutputLog(if r.scriptOutput.Some? then r.scriptOutput.value else []);
    var log := ExpectedRun(inv, lookups, userFromEnv, pwFromEnv, t).log;
    assert OpeningLog(inv, lookups) + (output + ErrorLog(r.errorCode, r.errorMessages.value)) + [LogEntry(Debug, Finished)]
      == (OpeningLog(inv, lookups) + output) + ErrorLog(r.errorCode, r.errorMessages.value) + [LogEntry(Debug, Finished)];
    ErrorEntriesBeforeLast(log, OpeningLog(inv, lookups) + output, r.errorCode, r.errorMessages.value, LogEntry(Debug, Finished));
  }

  /** A reply with script output logs every pair, in order, right after the
      opening entries. */
  lemma ScriptOutputReported(inv: Invocation, lookups: seq<LogEntry>, userFromEnv: Option<string>, pwFromEnv: Option<string>,
    t: Transport)
    requires SendsRequest(inv, userFromEnv, pwFromEnv, t) && t.send.Success?
    requires Reply(t).Some? && Reply(t).value.scriptOutput.Some?
    ensures var run := ExpectedRun(inv, lookups, userFromEnv, pwFromEnv, t);
      var lines := Reply(t).value.scriptOutput.value;
      && |run.log| > |OpeningLog(inv, lookups)| + |lines|
      && forall i | 0 <= i < |lines| ::
           run.log[|OpeningLog(inv, lookups)| + i] == LogEntry(Debug, ScriptOutputLine(lines[i].0, lines[i].1))
  {
    AnsweredRun(inv, lookups, userFromEnv, pwFromEnv, t);
    var lines := Reply(t).value.scriptOutput.value;
    OutputLogEntries(lines);
    var interpreted := Interpretation(inv, Reply(t)).log;
    var rest := interpreted[|lines|..];
    assert interpreted == OutputLog(lines) + rest;
    var log := ExpectedRun(inv, lookups, userFromEnv, pwFromEnv, t).log;
    assert log == OpeningLog(inv, lookups) + OutputLog(lines) + (rest + [LogEntry(Debug, Finished)]);
  }

  /** Every run logs the starting entry first and the entry of the `finally`
      block last. */
  lemma LogBracketed(inv: Invocation, lookups: seq<LogEntry>, userFromEnv: Option<string>, pwFromEnv: Option<string>,
    t: Transport)
    ensures var log := ExpectedRun(inv, lookups, userFromEnv, pwFromEnv, t).log;
      |log| >= 2 && log[0] == LogEntry(Debug, Starting) && log[|log| - 1] == LogEntry(Debug, Finished)
  {
  }
}
