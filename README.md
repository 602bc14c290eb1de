# RunAutomationScript `local` command, modelled in Dafny

Skyline.DataMiner.CICD.Tools.RunAutomationScript is a command-line tool. It
runs one Automation script on the DataMiner Agent of the machine it runs on.
Its `local` command does the following:

- resolves a DataMiner user name and password from the arguments, from the
  environment variables `DATAMINER_DEPLOY_USER` and `DATAMINER_DEPLOY_PASSWORD`,
  and, on Windows, from the keys stored with WinEncryptedKeys;
- opens an SLNet connection to `localhost` and refuses cloud-hosted agents;
- sends one `ExecuteScriptMessage`, whose option tokens encode the
  `DmsAutomationScriptRunOptions`;
- logs the script output and errors in the reply;
- maps what happened to an exit code.

The model has seven modules:

| module | file | models |
|---|---|---|
| `RunFlags` | `run_flags.dfy` | the `DmsAutomationScriptRunFlags` enumeration as `bv32` constants |
| `ScriptRunOptions` | `run_options.dfy` | the `DmsAutomationScriptRunOptions` record and its defaults |
| `LocalEncoding` | `local_encoding.dfy` | `ParseRunFlags` and the option-token list of `InvokeAsync`, as functions |
| `LocalCredentials` | `local_credentials.dfy` | the lookups of the environment and the encrypted store, the `??` fold of `TryFindEnvironmentKeys`, and the choice between argument and environment |
| `Connection` | `connection.dfy` | the SLNet `GRPCConnection` library, as an object that records every call it receives |
| `SLNet` | `sl_net.dfy` | `SLNetCommunication`: the cloud guard, the setup sequence, `Dispose` and `SendSingleResponseMessage` |
| `Local` | `local.dfy` | `LocalCommandHandler`, a class with the two environment fields and the bound properties |

Two helper modules support them. `Wrappers` defines Option and Result: Option
stands for C#'s null and Result for an exception. `Strings` defines
`String.IsNullOrWhiteSpace`, `String.Contains` and the decimal rendering of an
int.

The connection library sits behind a `Network` object. The network holds a
fixed `Transport`, which is what the library does on each call:

- construction completes or throws;
- `Authenticate` completes or throws;
- `Subscribe` completes or throws;
- the send returns replies or throws.

The network also keeps `trace`, the list of calls made on the library.
`LocalCommandHandler.InvokeAsync` is proved against the function
`ExpectedRun`, in three parts:

- the exit code it returns;
- the library calls it makes (the change to `trace`);
- the entries it logs (the change to `Logger.entries`).

The lemmas in `Local` then state what a run amounts to:

- which exit code results from which outcome;
- that the connection is disposed exactly once when a request was sent;
- what is logged for script output and script errors;
- what happens on Windows and on other platforms.

The model follows the code as written, including two behaviours that its
comments do not suggest:

- On Windows, `TryFindEncryptedEnvironmentKey` returns `""` rather than null
  for a key that is not stored. So `?? userFromEnv` never falls back, and the
  null check of the credentials cannot fail there. With nothing configured, the
  tool authenticates as `""` with password `""` (`WindowsAlwaysConnects`).
- Only a failure to construct the connection is wrapped in an
  `InvalidOperationException` with the minimum-version message.
  - An exception from `Authenticate` or `Subscribe` passes through unwrapped.
  - The connection object constructed before it is never disposed, because
    the `using` block has not been entered yet (`SetupFailureLeavesConnection`).
  - The unwrapped exception reaches the top-level catch of `InvokeAsync`,
    which logs it and answers UnexpectedException (`ConnectedRun`).

## Model

| member | source | states |
|---|---|---|
| RunFlags.FlagValues | Skyline.DataMiner.CICD.Tools.RunAutomationScript/DmsAutomationScriptRunFlags.cs:10-13 | None, Lock, ForceLock and NoWait are 0, 1, 2 and 4 |
| RunFlags.FlagsAreDisjointBits | Skyline.DataMiner.CICD.Tools.RunAutomationScript/DmsAutomationScriptRunFlags.cs:5-13 | Lock, ForceLock and NoWait are single bits, and no two of them share a bit |
| RunFlags.OrOfSubsetIsSum | Skyline.DataMiner.CICD.Tools.RunAutomationScript/DmsAutomationScriptRunFlags.cs:5-13 | OR-ing any subset of the three flags gives the sum of their values, and each flag can be read back from the result |
| RunFlags.NoneIsIdentity | Skyline.DataMiner.CICD.Tools.RunAutomationScript/DmsAutomationScriptRunFlags.cs:10 | None is the identity of bitwise OR on both sides |
| RunFlags.AllFlagsIsSeven | Skyline.DataMiner.CICD.Tools.RunAutomationScript/DmsAutomationScriptRunFlags.cs:11-13 | Lock, ForceLock and NoWait together are 7 |
| ScriptRunOptions.Default | Skyline.DataMiner.CICD.Tools.RunAutomationScript/DmsAutomationScriptRunOptions.cs:12-48 | a new options record has AgentId and UserCookie null, ExtendedErrorInfo, CheckSets and WaitWhenLocked true, LockElements and ForceLockElements false |
| LocalEncoding.ScriptRunFlags | Skyline.DataMiner.CICD.Tools.RunAutomationScript/Commands/Local.cs:236-246 | the Lock bit is set iff LockElements, the ForceLock bit iff ForceLockElements (whatever LockElements is), the NoWait bit iff not WaitWhenLocked, and no other bit is set |
| LocalEncoding.ParseRunFlags | Skyline.DataMiner.CICD.Tools.RunAutomationScript/Commands/Local.cs:234-249 | the token is "OPTIONS:" followed by the decimal value of 1, 2 and 4 added up for the options set, and that value is at most 7 |
| LocalEncoding.ParseRunFlagsInjective | Skyline.DataMiner.CICD.Tools.RunAutomationScript/Commands/Local.cs:234-249 | two option records give the same token iff they agree on LockElements, ForceLockElements and WaitWhenLocked, so all eight combinations give different tokens |
| LocalEncoding.ParseRunFlagsExamples | Skyline.DataMiner.CICD.Tools.RunAutomationScript/Commands/Local.cs:234-249 | the default options give OPTIONS:0; Lock gives 1, ForceLock alone 2, Lock and ForceLock 3, NoWait alone 4, all three 7 |
| LocalEncoding.ActionTokensLayout | Skyline.DataMiner.CICD.Tools.RunAutomationScript/Commands/Local.cs:160-184 | the token list has 4 tokens with extended error info and 3 without; the OPTIONS token is first, CHECKSETS:TRUE or CHECKSETS:FALSE as CheckSets says is second, EXTENDED_ERROR_INFO is third when asked for, and DEFER:FALSE for a synchronous run or DEFER:TRUE otherwise is last; no token appears twice |
| LocalEncoding.ActionTokensCounts | Skyline.DataMiner.CICD.Tools.RunAutomationScript/Commands/Local.cs:160-184 | exactly one token starts with OPTIONS:, one with DEFER: and one with CHECKSETS:; that one is CHECKSETS:TRUE iff CheckSets; EXTENDED_ERROR_INFO appears once iff ExtendedErrorInfo and otherwise not at all |
| LocalEncoding.InvokeOptionsEncodeToZero | Skyline.DataMiner.CICD.Tools.RunAutomationScript/Commands/Local.cs:143-161 | the options InvokeAsync builds give OPTIONS:0 for every CheckSets and ExtendedErrorInfo |
| Strings.DecimalString | Skyline.DataMiner.CICD.Tools.RunAutomationScript/Commands/Local.cs:248 | the rendering of the flags value is a nonempty string of digits without a leading zero |
| Strings.DecimalRoundTrip | Skyline.DataMiner.CICD.Tools.RunAutomationScript/Commands/Local.cs:248 | reading back the decimal rendering of n gives n |
| Strings.DecimalStringInjective | Skyline.DataMiner.CICD.Tools.RunAutomationScript/Commands/Local.cs:248 | two numbers have the same rendering iff they are equal |
| Strings.ContainsIff | Skyline.DataMiner.CICD.Tools.RunAutomationScript/SLNetCommunication.cs:15 | the recursive String.Contains holds iff the second string occurs in the first at some index |
| LocalCredentials.TryFindEncryptedEnvironmentKey | Skyline.DataMiner.CICD.Tools.RunAutomationScript/Commands/Local.cs:251-262 | the stored key when there is one, and "" when there is none |
| LocalCredentials.TryFindEnvironmentKey | Skyline.DataMiner.CICD.Tools.RunAutomationScript/Commands/Local.cs:264-283 | a value is returned iff the variable is set to something other than white space, and it is then the variable's value |
| LocalCredentials.PlainVariableOverrides | Skyline.DataMiner.CICD.Tools.RunAutomationScript/Commands/Local.cs:290-301 | a plain variable that is not blank replaces whatever the field held and whatever the encrypted step stored |
| LocalCredentials.BlankPlainVariableKeepsValue | Skyline.DataMiner.CICD.Tools.RunAutomationScript/Commands/Local.cs:290-301 | a blank or missing plain variable leaves the encrypted step's value on Windows and the previous value elsewhere |
| LocalCredentials.WindowsFieldNeverNull | Skyline.DataMiner.CICD.Tools.RunAutomationScript/Commands/Local.cs:251-301 | on Windows the field is never null after the fold, and it is "" when neither the store nor the plain variable has the key |
| LocalCredentials.CredentialPrecedence | Skyline.DataMiner.CICD.Tools.RunAutomationScript/Commands/Local.cs:121-139 | the credential is the argument if it is not blank, else the plain variable if it is not blank, else on Windows the stored key or "", else the previous field value; user and password are resolved independently |
| LocalCredentials.CredentialPrecedenceExample | Skyline.DataMiner.CICD.Tools.RunAutomationScript/Commands/Local.cs:121-139 | the argument "alice" wins over a variable "bob", and an argument of white space falls through to "bob" |
| SLNet.FirstOrDefault | Skyline.DataMiner.CICD.Tools.RunAutomationScript/SLNetCommunication.cs:67 | null iff there is no reply, and otherwise the first reply |
| SLNet.SLNetCommunication.constructor | Skyline.DataMiner.CICD.Tools.RunAutomationScript/SLNetCommunication.cs:40 | the end point is the host name, over the connection that was set up |
| SLNet.SLNetCommunication.GetConnection | Skyline.DataMiner.CICD.Tools.RunAutomationScript/SLNetCommunication.cs:13-50 | the calls made are SetupTrace; it fails iff SetupError names an exception, and with that exception; on success the connection is new, has the three timeouts at 120000, is authenticated, subscribed and not disposed, and the end point is the host name |
| SLNet.SLNetCommunication.Dispose | Skyline.DataMiner.CICD.Tools.RunAutomationScript/SLNetCommunication.cs:52-55 | the underlying connection is disposed with one Dispose call, and its timeouts and its authenticated and subscribed state are unchanged |
| SLNet.SLNetCommunication.SendSingleResponseMessage | Skyline.DataMiner.CICD.Tools.RunAutomationScript/SLNetCommunication.cs:64-68 | the message alone is sent with the 3600000 ms timeout; the result is the first reply or null, or the library's exception |
| SLNet.CloudHostRejected | Skyline.DataMiner.CICD.Tools.RunAutomationScript/SLNetCommunication.cs:15-18 | a host name containing .dataminer.services is refused with an InvalidOperationException, and no call on the library is made |
| SLNet.CloudGuardIsSubstringTest | Skyline.DataMiner.CICD.Tools.RunAutomationScript/SLNetCommunication.cs:15 | a host that ends with the cloud domain is refused, and so is agent.dataminer.services.example.com, which does not end with it |
| SLNet.ConstructFailureWrapped | Skyline.DataMiner.CICD.Tools.RunAutomationScript/SLNetCommunication.cs:20-30 | a failure to construct the connection becomes one InvalidOperationException; its message names MR 10.3 / FR 10.3.2 and its inner exception is the cause; only the construction was attempted |
| SLNet.SetupOrder | Skyline.DataMiner.CICD.Tools.RunAutomationScript/SLNetCommunication.cs:32-40 | the calls made are always a prefix of construct, the three timeouts, Authenticate, Subscribe; all of them when nothing throws; and when Subscribe completes, all of them iff nothing throws |
| SLNet.SetupFailureLeavesConnection | Skyline.DataMiner.CICD.Tools.RunAutomationScript/SLNetCommunication.cs:32-38 | when Authenticate or Subscribe throws, the setup fails with that exception, unwrapped; the calls made are the setup up to Authenticate when Authenticate throws and the whole setup when Subscribe throws, so they start with the construction, end with the call that threw, and contain no Dispose |
| Local.AsExecuteScriptResponse | Skyline.DataMiner.CICD.Tools.RunAutomationScript/Commands/Local.cs:191 | the cast yields the reply iff it is a script response, and null otherwise |
| Local.Reply | Skyline.DataMiner.CICD.Tools.RunAutomationScript/Commands/Local.cs:191 | the response InvokeAsync reads is the first reply when that is a script response, and null when there is none or it is another kind of message |
| Local.LocalCommandHandler.constructor | Skyline.DataMiner.CICD.Tools.RunAutomationScript/Commands/Local.cs:86-100 | the bound properties are those given, and both environment fields start null |
| Local.LocalCommandHandler.Invoke | Skyline.DataMiner.CICD.Tools.RunAutomationScript/Commands/Local.cs:102-106 | the synchronous entry point always answers NotImplemented |
| Local.LocalCommandHandler.TryFindEnvironmentKeys | Skyline.DataMiner.CICD.Tools.RunAutomationScript/Commands/Local.cs:290-301 | each field becomes the fold of its previous value, the encrypted key on Windows and the plain variable; the log gains LookupLog, one debug entry per lookup that found a key |
| Local.LocalCommandHandler.TryFindEncryptedEnvironmentKey | Skyline.DataMiner.CICD.Tools.RunAutomationScript/Commands/Local.cs:251-262 | the result is the stored key or ""; one debug entry naming the key is logged iff it is stored |
| Local.LocalCommandHandler.TryFindEnvironmentKey | Skyline.DataMiner.CICD.Tools.RunAutomationScript/Commands/Local.cs:264-283 | the result is the variable when it is usable and null otherwise; one debug entry is logged iff it is usable, saying it overrides iff the user field is not blank |
| Local.LocalCommandHandler.InvokeAsync | Skyline.DataMiner.CICD.Tools.RunAutomationScript/Commands/Local.cs:109-232 | the two fields are updated as the fold states; the exit code, the library calls and the log entries are those of ExpectedRun, whose opening entries include the lookup entries of LookupLog |
| Local.LocalCommandHandler.Prepare | Skyline.DataMiner.CICD.Tools.RunAutomationScript/Commands/Local.cs:112-141 | the fields are updated as the fold states, each credential is chosen from its argument and its field, and the log gains the opening entries with the lookup entries |
| Local.LocalCommandHandler.LogLookups | Skyline.DataMiner.CICD.Tools.RunAutomationScript/Commands/Local.cs:112-117 | the starting entry is logged before the lookups; the fields are updated as the fold states and the log gains the starting entry followed by LookupLog |
| Local.LocalCommandHandler.ChooseCredentials | Skyline.DataMiner.CICD.Tools.RunAutomationScript/Commands/Local.cs:118-139 | each credential is its argument when that is not blank and the environment field otherwise, with one debug entry per argument used |
| Local.LocalCommandHandler.Connect | Skyline.DataMiner.CICD.Tools.RunAutomationScript/Commands/Local.cs:158-227 | with known credentials, the exit code, the calls and the log are those of ConnectedRun: a setup exception is logged and gives UnexpectedException |
| Local.LocalCommandHandler.ExecuteOver | Skyline.DataMiner.CICD.Tools.RunAutomationScript/Commands/Local.cs:158-218 | the token list built by the successive adds is ActionTokens; the exit code, the calls and the log are those of SessionRun; the connection ends disposed |
| Local.LocalCommandHandler.Interpret | Skyline.DataMiner.CICD.Tools.RunAutomationScript/Commands/Local.cs:191-217 | the exit code and the log entries are those of Interpretation of the reply |
| Local.LocalCommandHandler.LogScriptOutput | Skyline.DataMiner.CICD.Tools.RunAutomationScript/Commands/Local.cs:195-201 | the log gains OutputLog of the pairs, one entry per pair in order |
| Local.LocalCommandHandler.LogScriptErrors | Skyline.DataMiner.CICD.Tools.RunAutomationScript/Commands/Local.cs:203-208 | the log gains ErrorLog of the messages, one entry per message in order |
| Local.LocalHostIsNotCloud | Skyline.DataMiner.CICD.Tools.RunAutomationScript/Commands/Local.cs:158 | localhost passes the cloud guard |
| Local.OutputLogEntries | Skyline.DataMiner.CICD.Tools.RunAutomationScript/Commands/Local.cs:197-200 | there is one output entry per pair, and entry i carries pair i's key and value |
| Local.ErrorLogEntries | Skyline.DataMiner.CICD.Tools.RunAutomationScript/Commands/Local.cs:205-208 | there is one error entry per message, and entry i carries the error code and message i |
| Local.RequestOptions | Skyline.DataMiner.CICD.Tools.RunAutomationScript/Commands/Local.cs:143-189 | the request names the script; its tokens start with OPTIONS:0; they contain CHECKSETS:TRUE iff CheckSets and CHECKSETS:FALSE iff not, and EXTENDED_ERROR_INFO iff ExtendedErrorInfo; they end with DEFER:FALSE for a synchronous run and DEFER:TRUE otherwise |
| Local.NoCallsWithoutCredentials | Skyline.DataMiner.CICD.Tools.RunAutomationScript/Commands/Local.cs:152-156 | no call is made on the library iff a credential is missing; the run then fails and logs the missing-credentials error |
| Local.ExitOk | Skyline.DataMiner.CICD.Tools.RunAutomationScript/Commands/Local.cs:191-221 | the exit code is Ok iff the request was sent and answered by a script response without HadError |
| Local.ExitFail | Skyline.DataMiner.CICD.Tools.RunAutomationScript/Commands/Local.cs:152-217 | the exit code is Fail iff a credential is missing, or the answer is not a script response, or it has HadError with a list of error messages |
| Local.ExitUnexpectedException | Skyline.DataMiner.CICD.Tools.RunAutomationScript/Commands/Local.cs:158-227 | the exit code is UnexpectedException iff the credentials are known and either the setup throws, the send throws, or the response has HadError with null ErrorMessages |
| Local.NeverNotImplemented | Skyline.DataMiner.CICD.Tools.RunAutomationScript/Commands/Local.cs:109-232 | InvokeAsync never answers NotImplemented |
| Local.ConnectedRunReleases | Skyline.DataMiner.CICD.Tools.RunAutomationScript/Commands/Local.cs:158-218 | once the setup completes, one request is sent and one Dispose is made as the last call; when the setup throws, neither happens |
| Local.CredentialedRun | Skyline.DataMiner.CICD.Tools.RunAutomationScript/Commands/Local.cs:152-231 | with both credentials known, the run is the connection attempt with them, between the opening and the closing log entries |
| Local.ConnectionReleased | Skyline.DataMiner.CICD.Tools.RunAutomationScript/Commands/Local.cs:158-218 | Dispose occurs exactly once, as the last call, iff the request was sent (known credentials and a completed setup), and exactly one request is sent in that case and none otherwise |
| Local.ConnectedRunAuthenticates | Skyline.DataMiner.CICD.Tools.RunAutomationScript/SLNetCommunication.cs:22-35 | an attempt to connect starts by constructing a connection to localhost and, if that completes, authenticates with the chosen credentials |
| Local.WindowsAlwaysConnects | Skyline.DataMiner.CICD.Tools.RunAutomationScript/Commands/Local.cs:152-158 | on Windows the credentials are never missing and a connection is always attempted; with no arguments, keys or variables it authenticates as "" with password "" |
| Local.UnconfiguredElsewhereFails | Skyline.DataMiner.CICD.Tools.RunAutomationScript/Commands/Local.cs:152-156 | on other platforms, with no usable user argument or variable, the run fails and makes no call |
| Local.AnsweredRun | Skyline.DataMiner.CICD.Tools.RunAutomationScript/Commands/Local.cs:191-231 | when the request is answered, the exit code is the interpretation's, and the log is the opening entries, the interpretation's entries and the closing entry |
| Local.InterpretationReportsErrors | Skyline.DataMiner.CICD.Tools.RunAutomationScript/Commands/Local.cs:203-211 | a response with HadError and a list of messages fails, after its output entries and one error entry per message |
| Local.ScriptErrorsReported | Skyline.DataMiner.CICD.Tools.RunAutomationScript/Commands/Local.cs:203-211 | such a run fails; its log ends with the error entries for the messages, each with the error code and in order, and then the closing entry |
| Local.ScriptOutputReported | Skyline.DataMiner.CICD.Tools.RunAutomationScript/Commands/Local.cs:195-201 | every script output pair is logged, in order, right after the opening entries |
| Local.LookupLogEntries | Skyline.DataMiner.CICD.Tools.RunAutomationScript/Commands/Local.cs:251-301 | the lookups log only debug entries, one per stored encrypted key on Windows and one per usable plain variable |
| Local.PasswordLookupReadsUserField | Skyline.DataMiner.CICD.Tools.RunAutomationScript/Commands/Local.cs:273-280 | off Windows with both variables set and no previous user, the user entry reports a first find and the password entry an override, because the override test reads the user field |
| Local.LogBracketed | Skyline.DataMiner.CICD.Tools.RunAutomationScript/Commands/Local.cs:112-231 | every run logs the starting entry first and the entry of the finally block last |

## Left out

- The text of log messages: each logger call is a `LogEvent` tag with the values it carries. The lookup entries are the tags `EncryptedKeyFound` and `EnvironmentKeyFound`. The text of the second always names the user variable, even while the password is resolved, and that text is not modelled.
- Program.cs, which does host, dependency-injection and Serilog wiring, and the `Local` command class at Local.cs:13-76. These are command-line plumbing; the model starts from the bound properties.
- `SLNetCommunication.SendMessage`: nothing calls it.
- The internals of `GRPCConnection`, `Authenticate`, `Subscribe`, `SendAsyncOverConnection`, `ExecuteScriptMessage`, `SA` and `ExecuteScriptResponseMessage`. They are foreign library types, modelled as the `Transport` outcomes. Every send on one network has the same outcome.
- What the timeouts mean in real time: they are recorded constants. The async shape of `InvokeAsync` is also left out, since its body runs synchronously.
- `RuntimeInformation.IsOSPlatform`, `Environment.GetEnvironmentVariable` and `WinEncryptedKeys.Lib.Keys.TryRetrieveKey`. They are OS calls and are the fields of the `Host` value. An exception thrown by one of them is not modelled.
- Exceptions from `Dispose`, from the logger and from the message constructors are not modelled.
- The integer values of `ExitCodes`: that enumeration is not part of this model.
- The two values are kept in two separate lists: the library calls in `Network.trace` and the log entries in `Logger.entries`, so how the calls and the logging interleave is not recorded. For example, "Finished execution" is logged after `Dispose` in the source.
- `ScriptOutput` is a dictionary in the source; here it is a sequence of pairs in enumeration order.
- The default timeouts of a fresh `GRPCConnection` are left unspecified: the model states only the values the setup assigns.
- The source's `SLNetCommunication` constructor can throw, and a Dafny constructor cannot fail. So `GetConnection` runs the guard and the setup steps, and the constructor only assigns `EndPoint`.
- `AgentId` and `UserCookie` of the options record have their defaults but never reach a token, as in the source.
