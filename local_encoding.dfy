/** The run-option encoder of LocalCommandHandler: ParseRunFlags and the
    option tokens InvokeAsync sends with an ExecuteScriptMessage. */
module LocalEncoding {
  import RunFlags
  import opened ScriptRunOptions
  import opened Strings

  const OptionsPrefix := "OPTIONS:"
  const CheckSetsPrefix := "CHECKSETS:"
  const CheckSetsTrue := "CHECKSETS:TRUE"
  const CheckSetsFalse := "CHECKSETS:FALSE"
  const ExtendedErrorInfoToken := "EXTENDED_ERROR_INFO"
  const DeferPrefix := "DEFER:"
  const DeferFalse := "DEFER:FALSE"
  const DeferTrue := "DEFER:TRUE"

  /** The `scriptRunFlags` value ParseRunFlags builds: Lock or None, then
      `|=` ForceLock, then `|=` NoWait. Each bit records exactly one option. */
  function ScriptRunFlags(o: RunOptions): (f: RunFlags.Flags)
    ensures f & RunFlags.Lock != 0 <==> o.lockElements
    ensures f & RunFlags.ForceLock != 0 <==> o.forceLockElements
    ensures f & RunFlags.NoWait != 0 <==> !o.waitWhenLocked
    ensures f & !(RunFlags.Lock | RunFlags.ForceLock | RunFlags.NoWait) == 0
  {
    var first := if o.lockElements then RunFlags.Lock else RunFlags.None;
    var second := if o.forceLockElements then first | RunFlags.ForceLock else first;
    if !o.waitWhenLocked then second | RunFlags.NoWait else second
  }

  /** The reference value of the flags: 1 for locking, 2 for forced locking,
      4 for not waiting, added up. */
  function FlagValue(o: RunOptions): nat {
    (if o.lockElements then 1 else 0)
    + (if o.forceLockElements then 2 else 0)
    + (if o.waitWhenLocked then 0 else 4)
  }

  /** ParseRunFlags: "OPTIONS:" followed by the integer value of the flags. */
  function ParseRunFlags(o: RunOptions): (token: string)
    ensures token == OptionsPrefix + DecimalString(FlagValue(o))
    ensures FlagValue(o) <= 7
  {
    RunFlags.OrOfSubsetIsSum(o.lockElements, o.forceLockElements, !o.waitWhenLocked);
    OptionsPrefix + DecimalString(ScriptRunFlags(o) as int)
  }

  /** Two option records give the same OPTIONS token exactly when they agree
      on the three locking options: all eight combinations are told apart. */
  lemma ParseRunFlagsInjective(a: RunOptions, b: RunOptions)
    ensures ParseRunFlags(a) == ParseRunFlags(b)
      <==> (a.lockElements == b.lockElements
            && a.forceLockElements == b.forceLockElements
            && a.waitWhenLocked == b.waitWhenLocked)
  {
    if ParseRunFlags(a) == ParseRunFlags(b) {
      var n := |OptionsPrefix|;
      assert ParseRunFlags(a)[n..] == DecimalString(FlagValue(a));
      assert ParseRunFlags(b)[n..] == DecimalString(FlagValue(b));
      DecimalStringInjective(FlagValue(a), FlagValue(b));
    }
  }

  /** Concrete encodings: the ForceLock bit does not depend on LockElements. */
  lemma ParseRunFlagsExamples()
    ensures ParseRunFlags(Default()) == "OPTIONS:0"
    ensures ParseRunFlags(Default().(lockElements := true)) == "OPTIONS:1"
    ensures ParseRunFlags(Default().(forceLockElements := true)) == "OPTIONS:2"
    ensures ParseRunFlags(Default().(lockElements := true, forceLockElements := true)) == "OPTIONS:3"
    ensures ParseRunFlags(Default().(waitWhenLocked := false)) == "OPTIONS:4"
    ensures ParseRunFlags(Default().(lockElements := true, forceLockElements := true, waitWhenLocked := false)) == "OPTIONS:7"
  {
  }

  /** The protocol tokens InvokeAsync puts in the message's options, in order:
      the flags, the check-sets choice, optionally extended error info, and
      the defer choice. */
  function ActionTokens(o: RunOptions, isSynchronous: bool): seq<string> {
    [ParseRunFlags(o)]
    + [if o.checkSets then CheckSetsTrue else CheckSetsFalse]
    + (if o.extendedErrorInfo then [ExtendedErrorInfoToken] else [])
    + [if isSynchronous then DeferFalse else DeferTrue]
  }

  predicate HasPrefix(t: string, p: string) {
    |p| <= |t| && t[..|p|] == p
  }

  lemma FirstCharDiffers(t: string, p: string)
    requires |t| > 0 && |p| > 0 && t[0] != p[0]
    ensures !HasPrefix(t, p)
  {
  }

  /** How many times `t` occurs in `s`. */
  function Count(s: seq<string>, t: string): nat {
    if s == [] then 0 else (if s[0] == t then 1 else 0) + Count(s[1..], t)
  }

  /** How many elements of `s` begin with `p`. */
  function CountWithPrefix(s: seq<string>, p: string): nat {
    if s == [] then 0 else (if HasPrefix(s[0], p) then 1 else 0) + CountWithPrefix(s[1..], p)
  }

  lemma {:induction false} CountAppend(a: seq<string>, b: seq<string>, t: string, p: string)
    ensures Count(a + b, t) == Count(a, t) + Count(b, t)
    ensures CountWithPrefix(a + b, p) == CountWithPrefix(a, p) + CountWithPrefix(b, p)
  {
    if a == [] {
      assert a + b == b;
    } else {
      assert (a + b)[1..] == a[1..] + b;
      CountAppend(a[1..], b, t, p);
    }
  }

  lemma CountSingleton(x: string, t: string, p: string)
    ensures Count([x], t) == (if x == t then 1 else 0)
    ensures CountWithPrefix([x], p) == (if HasPrefix(x, p) then 1 else 0)
  {
    assert [x][1..] == [];
  }

  /** Counting over the four parts of a token list separately. */
  lemma CountParts(flags: string, sets: string, ext: seq<string>, defer: string, t: string, p: string)
    ensures Count([flags] + [sets] + ext + [defer], t)
      == Count([flags], t) + Count([sets], t) + Count(ext, t) + Count([defer], t)
    ensures CountWithPrefix([flags] + [sets] + ext + [defer], p)
      == CountWithPrefix([flags], p) + CountWithPrefix([sets], p) + CountWithPrefix(ext, p) + CountWithPrefix([defer], p)
  {
    CountAppend([flags], [sets], t, p);
    CountAppend([flags] + [sets], ext, t, p);
    CountAppend([flags] + [sets] + ext, [defer], t, p);
  }

  /** The token list has the shape the protocol requires: three or four tokens,
      the OPTIONS token first, the CHECKSETS token second, EXTENDED_ERROR_INFO
      third when it was asked for, and the DEFER token last, FALSE exactly for
      a synchronous run; no token occurs twice. */
  lemma ActionTokensLayout(o: RunOptions, isSynchronous: bool)
    ensures var tokens := ActionTokens(o, isSynchronous);
      && |tokens| == (if o.extendedErrorInfo then 4 else 3)
      && tokens[0] == ParseRunFlags(o)
      && tokens[1] == (if o.checkSets then CheckSetsTrue else CheckSetsFalse)
      && (o.extendedErrorInfo ==> tokens[2] == ExtendedErrorInfoToken)
      && tokens[|tokens| - 1] == (if isSynchronous then DeferFalse else DeferTrue)
      && (forall i, j | 0 <= i < j < |tokens| :: tokens[i] != tokens[j])
  {
    assert ParseRunFlags(o)[0] == 'O';
  }

  /** Each kind of token occurs as often as the protocol allows: one OPTIONS
      token, one CHECKSETS token that reads TRUE exactly when gets follow
      sets, EXTENDED_ERROR_INFO once exactly when it was asked for, and one
      DEFER token. */
  lemma ActionTokensCounts(o: RunOptions, isSynchronous: bool)
    ensures var tokens := ActionTokens(o, isSynchronous);
      && CountWithPrefix(tokens, OptionsPrefix) == 1
      && CountWithPrefix(tokens, CheckSetsPrefix) == 1
      && Count(tokens, CheckSetsTrue) == (if o.checkSets then 1 else 0)
      && Count(tokens, CheckSetsFalse) == (if o.checkSets then 0 else 1)
      && Count(tokens, ExtendedErrorInfoToken) == (if o.extendedErrorInfo then 1 else 0)
      && CountWithPrefix(tokens, DeferPrefix) == 1
  {
    var flags := ParseRunFlags(o);
    var sets := if o.checkSets then CheckSetsTrue else CheckSetsFalse;
    var ext: seq<string> := if o.extendedErrorInfo then [ExtendedErrorInfoToken] else [];
    var defer := if isSynchronous then DeferFalse else DeferTrue;
    assert flags[0] == 'O' && flags[..|OptionsPrefix|] == OptionsPrefix;
    FirstCharDiffers(sets, OptionsPrefix);
    FirstCharDiffers(defer, OptionsPrefix);
    FirstCharDiffers(flags, CheckSetsPrefix);
    FirstCharDiffers(defer, CheckSetsPrefix);
    FirstCharDiffers(flags, DeferPrefix);
    FirstCharDiffers(sets, DeferPrefix);
    TokenCount(flags, sets, ext, defer, CheckSetsTrue, OptionsPrefix);
    TokenCount(flags, sets, ext, defer, CheckSetsFalse, CheckSetsPrefix);
    TokenCount(flags, sets, ext, defer, ExtendedErrorInfoToken, DeferPrefix);
    if o.extendedErrorInfo {
      FirstCharDiffers(ExtendedErrorInfoToken, OptionsPrefix);
      FirstCharDiffers(ExtendedErrorInfoToken, CheckSetsPrefix);
      FirstCharDiffers(ExtendedErrorInfoToken, DeferPrefix);
      CountSingleton(ExtendedErrorInfoToken, ExtendedErrorInfoToken, OptionsPrefix);
      CountSingleton(ExtendedErrorInfoToken, ExtendedErrorInfoToken, CheckSetsPrefix);
      CountSingleton(ExtendedErrorInfoToken, ExtendedErrorInfoToken, DeferPrefix);
    }
  }

  /** One count over the token list, given what each part contributes. */
  lemma TokenCount(flags: string, sets: string, ext: seq<string>, defer: string, t: string, p: string)
    ensures Count([flags] + [sets] + ext + [defer], t)
      == (if flags == t then 1 else 0) + (if sets == t then 1 else 0) + Count(ext, t) + (if defer == t then 1 else 0)
    ensures CountWithPrefix([flags] + [sets] + ext + [defer], p)
      == (if HasPrefix(flags, p) then 1 else 0) + (if HasPrefix(sets, p) then 1 else 0)
         + CountWithPrefix(ext, p) + (if HasPrefix(defer, p) then 1 else 0)
  {
    CountParts(flags, sets, ext, defer, t, p);
    CountSingleton(flags, t, p);
    CountSingleton(sets, t, p);
    CountSingleton(defer, t, p);
  }

  /** The options InvokeAsync builds always encode to OPTIONS:0, whatever
      CheckSets and ExtendedErrorInfo are. */
  lemma InvokeOptionsEncodeToZero(checkSets: bool, extendedErrorInfo: bool)
    ensures ParseRunFlags(Default().(checkSets := checkSets, extendedErrorInfo := extendedErrorInfo,
                                    lockElements := false, forceLockElements := false,
                                    waitWhenLocked := true)) == "OPTIONS:0"
  {
  }
}
