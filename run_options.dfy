/** DmsAutomationScriptRunOptions: the options for executing an Automation
    script, as one immutable record value. */
module ScriptRunOptions {
  import opened Wrappers

  datatype RunOptions = RunOptions(
    agentId: Option<int>,       // the agent that runs the script; None means the agent called
    extendedErrorInfo: bool,    // extended error info is desired
    forceLockElements: bool,    // locking the elements is forced
    lockElements: bool,         // the elements are locked
    checkSets: bool,            // gets are performed after sets
    userCookie: Option<string>, // the user that runs the script; None means the connection's user
    waitWhenLocked: bool)       // wait when the elements are locked

  /** `new DmsAutomationScriptRunOptions()`: every property at its initializer
      or, where it has none, at the default of its type. */
  function Default(): (o: RunOptions)
    ensures o.agentId.None? && o.userCookie.None?
    ensures o.extendedErrorInfo && o.checkSets && o.waitWhenLocked
    ensures !o.lockElements && !o.forceLockElements
  {
    RunOptions(
      agentId := None,
      extendedErrorInfo := true,
      forceLockElements := false,
      lockElements := false,
      checkSets := true,
      userCookie := None,
      waitWhenLocked := true)
  }
}
