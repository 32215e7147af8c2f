/**
 The command-line binary's `main`: an independent copy of the library's
 protocol in which every failure returns at once, so a failure after entering
 the alternate screen skips leaving it. Its pause block is the library's pause
 with the prompt always printed.
 */
module AltscrBin {
  import opened Terminal
  import AltscrLib

  /** The body of `main` once the command line is parsed. */
  function ExpectedMain(o: Oracle, pause: bool, t: TermState, input: seq<InputEvent>): Run
    requires o.enterAlt && ReachesLoop(o, pause) ==> HasStop(input)
  {
    if !o.enterAlt then Run(Err(EnterAltScreenFailed), [EnterAlt], t, input)
    else
      var t1 := t.(altScreen := true);
      if !o.spawn then Run(Err(SpawnFailed), [EnterAlt, Spawn], t1, input)
      else if o.wait.WaitFails? then Run(Err(WaitFailed), [EnterAlt, Spawn, Wait], t1, input)
      else
        var p := if pause then AltscrLib.ExpectedPause(false, o, t1, input) else Run(Ok, [], t1, input);
        var before := [EnterAlt, Spawn, Wait] + p.effects;
        if p.result.Err? then p.(effects := before)
        else if !o.leaveAlt then p.(result := Err(ExitAltScreenFailed), effects := before + [LeaveAlt])
        else p.(effects := before + [LeaveAlt], term := p.term.(altScreen := false))
  }

  method RunMain(env: Env, pause: bool) returns (r: Outcome)
    requires env.oracle.enterAlt && ReachesLoop(env.oracle, pause) ==> HasStop(env.input)
    modifies env
    ensures env.Performed(ExpectedMain(env.oracle, pause, old(env.Term()), old(env.input)), r)
  {
    var ok := env.EnterAlternateScreen();
    if !ok {
      return Err(EnterAltScreenFailed);
    }
    ok := env.SpawnChild();
    if !ok {
      return Err(SpawnFailed);
    }
    var status := env.WaitChild();
    if status.None? {
      return Err(WaitFailed);
    }
    ghost var p := if pause then AltscrLib.ExpectedPause(false, env.oracle, env.Term(), env.input)
                   else Run(Ok, [], env.Term(), env.input);
    ghost var waited := env.trace;
    ghost var before := [EnterAlt, Spawn, Wait] + p.effects;
    assert ExpectedMain(env.oracle, pause, old(env.Term()), old(env.input))
        == if p.result.Err? then p.(effects := before)
           else if !env.oracle.leaveAlt then p.(result := Err(ExitAltScreenFailed), effects := before + [LeaveAlt])
           else p.(effects := before + [LeaveAlt], term := p.term.(altScreen := false));
    if pause {
      r := AltscrLib.Pause(env, false);
      if r.Err? {
        assert env.trace == old(env.trace) + before;
        return;
      }
    }
    assert env.trace == waited + p.effects && env.Term() == p.term && env.input == p.rest;
    ok := env.LeaveAlternateScreen();
    if !ok {
      assert env.trace == old(env.trace) + (before + [LeaveAlt]);
      return Err(ExitAltScreenFailed);
    }
    assert env.trace == old(env.trace) + (before + [LeaveAlt]);
    r := Ok;
  }

  // ---------------------------------------------------------------------------
  // Properties

  /** Every step before leaving the alternate screen succeeds. */
  predicate AllStepsSucceed(o: Oracle, pause: bool, input: seq<InputEvent>)
    requires o.enterAlt && ReachesLoop(o, pause) ==> HasStop(input)
  {
    && o.enterAlt && o.spawn && o.wait.Exited?
    && (pause ==> o.enableRaw && input[FirstStop(input)] == Key && o.disableRaw)
  }

  /** Entering the alternate screen fails: nothing else happens and that
      error is returned. */
  lemma MainEnterFailureStopsAll(o: Oracle, pause: bool, t: TermState, input: seq<InputEvent>)
    requires !o.enterAlt
    ensures var r := ExpectedMain(o, pause, t, input);
      r.result == Err(EnterAltScreenFailed) && r.effects == [EnterAlt] && r.term == t && r.rest == input
  {
  }

  /** The alternate screen is left, at the end and once, exactly when every
      earlier step succeeded. */
  lemma MainLeavesOnlyAfterSuccess(o: Oracle, pause: bool, t: TermState, input: seq<InputEvent>)
    requires o.enterAlt && ReachesLoop(o, pause) ==> HasStop(input)
    ensures LeaveAlt in ExpectedMain(o, pause, t, input).effects <==> AllStepsSucceed(o, pause, input)
    ensures AllStepsSucceed(o, pause, input) ==>
      var r := ExpectedMain(o, pause, t, input);
      r.effects[|r.effects| - 1] == LeaveAlt && LeaveAlt !in r.effects[..|r.effects| - 1]
  {
  }

  /** Any failure after entering the alternate screen is returned at once and
      leaves the terminal in the alternate screen. */
  lemma MainFailureSkipsCleanup(o: Oracle, pause: bool, t: TermState, input: seq<InputEvent>)
    requires o.enterAlt && ReachesLoop(o, pause) ==> HasStop(input)
    requires o.enterAlt && !AllStepsSucceed(o, pause, input)
    ensures var r := ExpectedMain(o, pause, t, input);
      && r.term.altScreen && LeaveAlt !in r.effects
      && r.result == if !o.spawn then Err(SpawnFailed)
                     else if o.wait.WaitFails? then Err(WaitFailed)
                     else if !o.enableRaw then Err(EnterRawModeFailed)
                     else if input[FirstStop(input)] == ReadError then Err(ReadInputEventFailed)
                     else Err(ExitRawModeFailed)
  {
  }

  /** Without a pause no prompt is printed and raw mode is never touched; with
      one, the prompt is printed right after the wait and before raw mode is
      switched on. */
  lemma MainPauseDiscipline(o: Oracle, pause: bool, t: TermState, input: seq<InputEvent>)
    requires o.enterAlt && ReachesLoop(o, pause) ==> HasStop(input)
    ensures var r := ExpectedMain(o, pause, t, input);
      && (!pause ==> AltscrLib.NoPauseEffects(r.effects) && r.term.raw == t.raw && r.rest == input)
      && (pause && o.enterAlt && o.spawn && o.wait.Exited? ==>
            |r.effects| >= 5 && r.effects[..5] == [EnterAlt, Spawn, Wait, Prompt, EnableRaw])
  {
  }

  /** A failure to leave the alternate screen is the run's error, not a warning. */
  lemma MainLeaveFailureIsReturned(o: Oracle, pause: bool, t: TermState, input: seq<InputEvent>)
    requires o.enterAlt && ReachesLoop(o, pause) ==> HasStop(input)
    requires AllStepsSucceed(o, pause, input) && !o.leaveAlt
    ensures var r := ExpectedMain(o, pause, t, input);
      r.result == Err(ExitAltScreenFailed) && Warn !in r.effects
  {
  }

  /** The exit status is ignored: every run whose terminal and process calls
      all succeed returns `Ok`, whatever the child's status. */
  lemma MainIgnoresExitStatus(o: Oracle, pause: bool, t: TermState, input: seq<InputEvent>)
    requires o.enterAlt && ReachesLoop(o, pause) ==> HasStop(input)
    requires AllStepsSucceed(o, pause, input) && o.leaveAlt
    ensures var r := ExpectedMain(o, pause, t, input);
      r.result == Ok && !r.term.altScreen && (pause ==> !r.term.raw)
  {
  }

  // ---------------------------------------------------------------------------
  // The binary against the library

  /** The library configuration that `main`'s pause flag stands for. */
  function LibPause(pause: bool): (c: Option<AltscrLib.PauseConfig>)
  {
    if pause then Some(AltscrLib.PauseConfig(silent := false)) else None
  }

  /** When nothing fails before leaving the alternate screen and leaving it
      succeeds, `main` and the library do exactly the same. */
  lemma SameRunWithoutFailures(o: Oracle, pause: bool, t: TermState, input: seq<InputEvent>)
    requires o.enterAlt && ReachesLoop(o, pause) ==> HasStop(input)
    requires AllStepsSucceed(o, pause, input) && o.leaveAlt
    ensures ExpectedMain(o, pause, t, input) == AltscrLib.ExpectedRunInAltScreenBuf(o, LibPause(pause), t, input)
  {
  }

  /** After a failure between entering and leaving the alternate screen both
      return the same error, but only the library leaves the alternate screen. */
  lemma OnlyLibraryCleansUpAfterFailure(o: Oracle, pause: bool, t: TermState, input: seq<InputEvent>)
    requires o.enterAlt && ReachesLoop(o, pause) ==> HasStop(input)
    requires o.enterAlt && !AllStepsSucceed(o, pause, input)
    ensures var m := ExpectedMain(o, pause, t, input);
      var l := AltscrLib.ExpectedRunInAltScreenBuf(o, LibPause(pause), t, input);
      && m.result == l.result && m.result.Err?
      && LeaveAlt !in m.effects && m.term.altScreen
      && LeaveAlt in l.effects && l.term.altScreen == !o.leaveAlt
  {
  }
}
