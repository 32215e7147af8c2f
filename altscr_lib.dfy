/**
 The library entry point: run a command inside the alternate screen, optionally
 pause for one key event afterwards, and always try to leave the alternate
 screen once it was entered.

 Each method performs its external calls on an `Env` and is proved to do
 exactly what the function `Expected<Method>` describes; the lemmas state
 what the protocol promises about those functions.
 */
module AltscrLib {
  import opened Terminal

  /** Whether the pause prints its prompt. */
  datatype PauseConfig = PauseConfig(silent: bool)

  /** `PauseConfig::default()`. */
  const DefaultPauseConfig := PauseConfig(silent := false)

  // ---------------------------------------------------------------------------
  // Specification functions

  /** The key-wait loop: read events until the first one that is not `Other`;
      a key ends the loop, a read failure returns it. */
  function ExpectedWaitForKey(t: TermState, input: seq<InputEvent>): Run
    requires HasStop(input)
  {
    var k := FirstStop(input);
    Run(if input[k] == Key then Ok else Err(ReadInputEventFailed), Reads(k + 1), t, input[k + 1..])
  }

  /** The pause: the optional prompt, raw mode on, the key-wait loop, raw mode off. */
  function ExpectedPause(silent: bool, o: Oracle, t: TermState, input: seq<InputEvent>): Run
    requires o.enableRaw ==> HasStop(input)
  {
    var prompt := if silent then [] else [Prompt];
    if !o.enableRaw then Run(Err(EnterRawModeFailed), prompt + [EnableRaw], t, input)
    else
      var w := ExpectedWaitForKey(t.(raw := true), input);
      var before := prompt + [EnableRaw] + w.effects;
      if w.result.Err? then w.(effects := before)
      else if !o.disableRaw then w.(result := Err(ExitRawModeFailed), effects := before + [DisableRaw])
      else w.(effects := before + [DisableRaw], term := w.term.(raw := false))
  }

  /** `run_and_pause`: spawn, wait, then the pause if one is configured. */
  function ExpectedRunAndPause(o: Oracle, pause: Option<PauseConfig>, t: TermState, input: seq<InputEvent>): Run
    requires ReachesLoop(o, pause.Some?) ==> HasStop(input)
  {
    if !o.spawn then Run(Err(SpawnFailed), [Spawn], t, input)
    else if o.wait.WaitFails? then Run(Err(WaitFailed), [Spawn, Wait], t, input)
    else match pause
      case None => Run(Ok, [Spawn, Wait], t, input)
      case Some(c) =>
        var p := ExpectedPause(c.silent, o, t, input);
        p.(effects := [Spawn, Wait] + p.effects)
  }

  /** `run_in_alt_screen_buf`: enter the alternate screen, `run_and_pause`,
      then leave the alternate screen, warning when that fails. */
  function ExpectedRunInAltScreenBuf(o: Oracle, pause: Option<PauseConfig>, t: TermState, input: seq<InputEvent>): Run
    requires o.enterAlt && ReachesLoop(o, pause.Some?) ==> HasStop(input)
  {
    if !o.enterAlt then Run(Err(EnterAltScreenFailed), [EnterAlt], t, input)
    else
      var c := ExpectedRunAndPause(o, pause, t.(altScreen := true), input);
      if o.leaveAlt then c.(effects := [EnterAlt] + c.effects + [LeaveAlt], term := c.term.(altScreen := false))
      else c.(effects := [EnterAlt] + c.effects + [LeaveAlt, Warn])
  }

  // ---------------------------------------------------------------------------
  // The protocol over the environment

  method WaitForKey(env: Env) returns (r: Outcome)
    requires HasStop(env.input)
    modifies env
    ensures env.Performed(ExpectedWaitForKey(old(env.Term()), old(env.input)), r)
  {
    ghost var k := FirstStop(env.input);
    ghost var n := 0;
    while true
      invariant 0 <= n <= k < |old(env.input)|
      invariant env.input == old(env.input)[n..]
      invariant env.trace == old(env.trace) + Reads(n)
      invariant env.Term() == old(env.Term())
      decreases k - n
    {
      var ev := env.NextEvent();
      n := n + 1;
      if ev == ReadError {
        return Err(ReadInputEventFailed);
      }
      if ev == Key {
        break;
      }
    }
    r := Ok;
  }

  method Pause(env: Env, silent: bool) returns (r: Outcome)
    requires env.oracle.enableRaw ==> HasStop(env.input)
    modifies env
    ensures env.Performed(ExpectedPause(silent, env.oracle, old(env.Term()), old(env.input)), r)
  {
    if !silent {
      env.PrintPrompt();
    }
    var ok := env.EnableRawMode();
    if !ok {
      return Err(EnterRawModeFailed);
    }
    ghost var prompt := if silent then [] else [Prompt];
    ghost var w := ExpectedWaitForKey(env.Term(), env.input);
    ghost var before := prompt + [EnableRaw] + w.effects;
    assert env.trace == old(env.trace) + prompt + [EnableRaw];
    r := WaitForKey(env);
    assert env.trace == old(env.trace) + before;
    if r.Err? {
      return;
    }
    ok := env.DisableRawMode();
    assert env.trace == old(env.trace) + (before + [DisableRaw]);
    if !ok {
      return Err(ExitRawModeFailed);
    }
    r := Ok;
  }

  /** The child's exit status is obtained and dropped. */
  method RunAndPause(env: Env, pause: Option<PauseConfig>) returns (r: Outcome)
    requires ReachesLoop(env.oracle, pause.Some?) ==> HasStop(env.input)
    modifies env
    ensures env.Performed(ExpectedRunAndPause(env.oracle, pause, old(env.Term()), old(env.input)), r)
  {
    var ok := env.SpawnChild();
    if !ok {
      return Err(SpawnFailed);
    }
    var status := env.WaitChild();
    if status.None? {
      return Err(WaitFailed);
    }
    match pause
    case None =>
      r := Ok;
    case Some(c) =>
      r := Pause(env, c.silent);
  }

  method RunInAltScreenBuf(env: Env, pause: Option<PauseConfig>) returns (r: Outcome)
    requires env.oracle.enterAlt && ReachesLoop(env.oracle, pause.Some?) ==> HasStop(env.input)
    modifies env
    ensures env.Performed(ExpectedRunInAltScreenBuf(env.oracle, pause, old(env.Term()), old(env.input)), r)
  {
    var ok := env.EnterAlternateScreen();
    if !ok {
      return Err(EnterAltScreenFailed);
    }
    ghost var c := ExpectedRunAndPause(env.oracle, pause, env.Term(), env.input);
    ghost var entered := env.trace;
    r := RunAndPause(env, pause);
    assert env.trace == entered + c.effects && r == c.result;
    ok := env.LeaveAlternateScreen();
    if !ok {
      env.PrintWarning();
      assert env.trace == old(env.trace) + ([EnterAlt] + c.effects + [LeaveAlt, Warn]);
    } else {
      assert env.trace == old(env.trace) + ([EnterAlt] + c.effects + [LeaveAlt]);
    }
  }

  // ---------------------------------------------------------------------------
  // Properties

  /** No prompt is printed and raw mode is neither switched nor read under. */
  predicate NoPauseEffects(effects: seq<Effect>) {
    forall e | e in effects :: e != Prompt && e != EnableRaw && e != ReadEvent && e != DisableRaw
  }

  /** The loop reads a run of non-key events and then exactly one key or read
      failure, and nothing beyond it; only a key makes it succeed. */
  lemma WaitForKeyConsumption(t: TermState, input: seq<InputEvent>)
    requires HasStop(input)
    ensures var r := ExpectedWaitForKey(t, input); var n := |r.effects|;
      && 1 <= n <= |input|
      && r.effects == Reads(n)
      && input[n - 1] != Other
      && input == Others(n - 1) + [input[n - 1]] + r.rest
      && r.term == t
      && (r.result == Ok <==> input[n - 1] == Key)
      && (r.result.Err? ==> r.result.step == ReadInputEventFailed)
  {
  }

  /** Any number of non-key events followed by a key or a read failure: the
      loop exits once, after exactly that event, leaving the rest unread. */
  lemma WaitForKeyStopsAtFirstStop(t: TermState, n: nat, stop: InputEvent, tail: seq<InputEvent>)
    requires stop != Other
    ensures HasStop(Others(n) + [stop] + tail)
    ensures ExpectedWaitForKey(t, Others(n) + [stop] + tail)
         == Run(if stop == Key then Ok else Err(ReadInputEventFailed), Reads(n + 1), t, tail)
  {
    var input := Others(n) + [stop] + tail;
    assert input[n] == stop;
    assert input[n + 1..] == tail;
  }

  /** Entering the alternate screen fails: that error is returned and nothing
      else is attempted, no spawn, no raw mode, no leave. */
  lemma EnterAltScreenFailureStopsAll(o: Oracle, pause: Option<PauseConfig>, t: TermState, input: seq<InputEvent>)
    requires !o.enterAlt
    ensures var r := ExpectedRunInAltScreenBuf(o, pause, t, input);
      r.result == Err(EnterAltScreenFailed) && r.effects == [EnterAlt] && r.term == t && r.rest == input
  {
  }

  /** The pause never touches the alternate screen and never warns; it
      succeeds exactly when raw mode is switched on, a key arrives before any
      read failure, and raw mode is switched off. */
  lemma PauseStaysInside(silent: bool, o: Oracle, t: TermState, input: seq<InputEvent>)
    requires o.enableRaw ==> HasStop(input)
    ensures var p := ExpectedPause(silent, o, t, input);
      && (forall e | e in p.effects :: e != EnterAlt && e != LeaveAlt && e != Warn)
      && p.term.altScreen == t.altScreen
      && (p.result == Ok <==> o.enableRaw && input[FirstStop(input)] == Key && o.disableRaw)
  {
  }

  /** `run_and_pause` never touches the alternate screen and never warns. */
  lemma RunAndPauseStaysInside(o: Oracle, pause: Option<PauseConfig>, t: TermState, input: seq<InputEvent>)
    requires ReachesLoop(o, pause.Some?) ==> HasStop(input)
    ensures var c := ExpectedRunAndPause(o, pause, t, input);
      && (forall e | e in c.effects :: e != EnterAlt && e != LeaveAlt && e != Warn)
      && c.term.altScreen == t.altScreen
  {
  }

  /** Once the alternate screen was entered, leaving it is attempted exactly
      once, as the last terminal call, whatever `run_and_pause` returned. */
  lemma LeaveAltScreenAttemptedOnce(o: Oracle, pause: Option<PauseConfig>, t: TermState, input: seq<InputEvent>)
    requires o.enterAlt
    requires ReachesLoop(o, pause.Some?) ==> HasStop(input)
    ensures var r := ExpectedRunInAltScreenBuf(o, pause, t, input); var n := |r.effects|;
      && Count(r.effects, EnterAlt) == 1
      && Count(r.effects, LeaveAlt) == 1
      && r.effects[0] == EnterAlt
      && r.effects[n - (if o.leaveAlt then 1 else 2)..] == (if o.leaveAlt then [LeaveAlt] else [LeaveAlt, Warn])
      && r.term.altScreen == !o.leaveAlt
  {
    var c := ExpectedRunAndPause(o, pause, t.(altScreen := true), input);
    RunAndPauseStaysInside(o, pause, t.(altScreen := true), input);
    var leave := if o.leaveAlt then [LeaveAlt] else [LeaveAlt, Warn];
    assert ExpectedRunInAltScreenBuf(o, pause, t, input).effects == [EnterAlt] + c.effects + leave;
    Bracketed(c.effects, leave);
  }

  /** The alternate screen is entered first and left once, at the end. */
  lemma Bracketed(inner: seq<Effect>, leave: seq<Effect>)
    requires EnterAlt !in inner && LeaveAlt !in inner
    requires leave == [LeaveAlt] || leave == [LeaveAlt, Warn]
    ensures var s := [EnterAlt] + inner + leave;
      && Count(s, EnterAlt) == 1 && Count(s, LeaveAlt) == 1
      && s[0] == EnterAlt && s[|s| - |leave|..] == leave
  {
    forall e | e == EnterAlt || e == LeaveAlt
      ensures Count([EnterAlt] + inner + leave, e) == 1
    {
      CountAbsent(inner, e);
      CountConcat([EnterAlt], inner, e);
      CountConcat([EnterAlt] + inner, leave, e);
      CountAbsent(leave[1..], e);
      assert Count(leave, e) == (if e == LeaveAlt then 1 else 0);
      assert Count([EnterAlt], e) == (if e == EnterAlt then 1 else 0);
    }
  }

  /** The result is `run_and_pause`'s; whether leaving the alternate screen
      fails changes only whether a warning is printed. */
  lemma LeaveAltScreenFailureOnlyWarns(o: Oracle, pause: Option<PauseConfig>, t: TermState, input: seq<InputEvent>, leaves: bool)
    requires o.enterAlt && ReachesLoop(o, pause.Some?) ==> HasStop(input)
    ensures var r := ExpectedRunInAltScreenBuf(o, pause, t, input);
      && (o.enterAlt ==> r.result == ExpectedRunAndPause(o, pause, t.(altScreen := true), input).result)
      && ExpectedRunInAltScreenBuf(o.(leaveAlt := leaves), pause, t, input).result == r.result
      && r.result != Err(ExitAltScreenFailed)
      && (Warn in r.effects <==> o.enterAlt && !o.leaveAlt)
  {
  }

  /** A spawn failure returns before waiting; a spawn or wait failure returns
      before any prompt or raw-mode call, with the terminal and input untouched. */
  lemma SpawnOrWaitFailureSkipsPause(o: Oracle, pause: Option<PauseConfig>, t: TermState, input: seq<InputEvent>)
    requires !o.spawn || o.wait.WaitFails?
    ensures var c := ExpectedRunAndPause(o, pause, t, input);
      && c.result == (if !o.spawn then Err(SpawnFailed) else Err(WaitFailed))
      && (!o.spawn ==> Wait !in c.effects)
      && NoPauseEffects(c.effects)
      && c.term == t && c.rest == input
  {
  }

  /** The exit status has no influence on anything the run does. */
  lemma ExitStatusIrrelevant(o: Oracle, status: ExitStatus, pause: Option<PauseConfig>, t: TermState, input: seq<InputEvent>)
    requires o.wait.Exited?
    requires o.enterAlt && ReachesLoop(o, pause.Some?) ==> HasStop(input)
    ensures ExpectedRunInAltScreenBuf(o.(wait := Exited(status)), pause, t, input)
         == ExpectedRunInAltScreenBuf(o, pause, t, input)
  {
  }

  /** Without a pause, a run whose child was waited for succeeds, for every
      exit status, and raw mode is never touched. */
  lemma NoPauseNeverTouchesRaw(o: Oracle, t: TermState, input: seq<InputEvent>)
    ensures var r := ExpectedRunInAltScreenBuf(o, None, t, input);
      && (o.enterAlt && o.spawn && o.wait.Exited? ==> r.result == Ok)
      && NoPauseEffects(r.effects)
      && r.term.raw == t.raw && r.rest == input
  {
  }

  /** The prompt is printed exactly when the pause runs and is not silent; the
      default configuration prints it. */
  lemma PromptIffNotSilent(o: Oracle, pause: Option<PauseConfig>, t: TermState, input: seq<InputEvent>)
    requires o.enterAlt && ReachesLoop(o, pause.Some?) ==> HasStop(input)
    ensures Prompt in ExpectedRunInAltScreenBuf(o, pause, t, input).effects
        <==> o.enterAlt && o.spawn && o.wait.Exited? && pause.Some? && !pause.value.silent
    ensures pause == Some(DefaultPauseConfig) && o.enterAlt && o.spawn && o.wait.Exited? ==>
      Prompt in ExpectedRunInAltScreenBuf(o, pause, t, input).effects
  {
  }

  /** The pause gets through: raw mode is switched on, a key arrives before
      any read failure, and raw mode is switched off. */
  predicate PauseSucceeds(o: Oracle, input: seq<InputEvent>) {
    o.enableRaw && HasStop(input) && input[FirstStop(input)] == Key && o.disableRaw
  }

  /** On the success path of a pause, raw mode is switched on once and off
      once, it is off by the time the alternate screen is left, and the run
      returns `Ok`. */
  lemma PauseBalancesRawMode(o: Oracle, c: PauseConfig, t: TermState, input: seq<InputEvent>)
    requires o.enterAlt && o.spawn && o.wait.Exited? && PauseSucceeds(o, input)
    ensures var r := ExpectedRunInAltScreenBuf(o, Some(c), t, input);
      && r.result == Ok
      && Count(r.effects, EnableRaw) == 1
      && Count(r.effects, DisableRaw) == 1
      && !ExpectedRunAndPause(o, Some(c), t.(altScreen := true), input).term.raw
      && !r.term.raw
  {
    var t1 := t.(altScreen := true);
    var prompt := if c.silent then [] else [Prompt];
    var polls := Reads(FirstStop(input) + 1);
    PauseSuccessRun(c.silent, o, t1, input);
    var p := ExpectedPause(c.silent, o, t1, input);
    var leave := if o.leaveAlt then [LeaveAlt] else [LeaveAlt, Warn];
    var pre := [EnterAlt] + [Spawn, Wait] + prompt;
    var r := ExpectedRunInAltScreenBuf(o, Some(c), t, input);
    assert r.effects == [EnterAlt] + ([Spawn, Wait] + p.effects) + leave;
    assert r.effects == pre + [EnableRaw] + polls + [DisableRaw] + leave;
    RawBracketed(pre, polls, leave);
  }

  /** The whole run of a pause that gets through. */
  lemma PauseSuccessRun(silent: bool, o: Oracle, t: TermState, input: seq<InputEvent>)
    requires PauseSucceeds(o, input)
    ensures var k := FirstStop(input);
      ExpectedPause(silent, o, t, input)
        == Run(Ok, (if silent then [] else [Prompt]) + [EnableRaw] + Reads(k + 1) + [DisableRaw],
               t.(raw := false), input[k + 1..])
  {
  }

  /** Raw mode is switched on and off once each around a run of reads. */
  lemma RawBracketed(pre: seq<Effect>, polls: seq<Effect>, post: seq<Effect>)
    requires forall e | e in pre :: e != EnableRaw && e != DisableRaw
    requires forall e | e in post :: e != EnableRaw && e != DisableRaw
    requires forall e | e in polls :: e == ReadEvent
    ensures var s := pre + [EnableRaw] + polls + [DisableRaw] + post;
      Count(s, EnableRaw) == 1 && Count(s, DisableRaw) == 1
  {
    forall e | e == EnableRaw || e == DisableRaw
      ensures Count(pre + [EnableRaw] + polls + [DisableRaw] + post, e) == 1
    {
      CountAbsent(pre, e);
      CountAbsent(polls, e);
      CountAbsent(post, e);
      CountConcat(pre, [EnableRaw], e);
      CountConcat(pre + [EnableRaw], polls, e);
      CountConcat(pre + [EnableRaw] + polls, [DisableRaw], e);
      CountConcat(pre + [EnableRaw] + polls + [DisableRaw], post, e);
    }
  }

  /** An enable or read failure returns at once and skips `disable_raw_mode`;
      after a read failure raw mode stays on. Leaving the alternate screen is
      still attempted. */
  lemma EarlyPauseFailureSkipsDisable(o: Oracle, c: PauseConfig, t: TermState, input: seq<InputEvent>)
    requires o.enterAlt && o.spawn && o.wait.Exited?
    requires o.enableRaw ==> HasStop(input)
    requires !o.enableRaw || input[FirstStop(input)] == ReadError
    ensures var r := ExpectedRunInAltScreenBuf(o, Some(c), t, input);
      && r.result == (if o.enableRaw then Err(ReadInputEventFailed) else Err(EnterRawModeFailed))
      && DisableRaw !in r.effects
      && LeaveAlt in r.effects
      && r.term.raw == (o.enableRaw || t.raw)
  {
  }
}
