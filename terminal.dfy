/**
 The environment the supervisor runs in: the process-wide terminal (alternate
 screen on or off, raw input mode on or off), the child process, the input
 events and the standard streams. Every external call is a method of `Env` that
 records itself in a trace and takes its success or failure from an oracle
 fixed when the environment is created.
 */
module Terminal {

  datatype Option<+T> = None | Some(value: T)

  /** One terminal input event as `event::read` delivers it: a key event
      (press, repeat or release), any other event (resize, mouse, focus,
      paste), or a failure to read. */
  datatype InputEvent = Key | Other | ReadError

  /** How the child ended: with a numeric code, or killed by a signal. */
  datatype ExitStatus = Code(code: int) | Signalled

  /** What waiting on the child answers. */
  datatype WaitAnswer = Exited(status: ExitStatus) | WaitFails

  /** The answer every external call gets. Each call is made at most once per
      run, so one answer per kind of call is enough. */
  datatype Oracle = Oracle(
    enterAlt: bool,
    spawn: bool,
    wait: WaitAnswer,
    enableRaw: bool,
    disableRaw: bool,
    leaveAlt: bool)

  /** The external effects, in the order they are attempted. `Prompt` is the
      line printed to stdout, `Warn` a line printed to stderr. */
  datatype Effect =
    | EnterAlt | LeaveAlt
    | Spawn | Wait
    | Prompt
    | EnableRaw | ReadEvent | DisableRaw
    | Warn

  /** The step whose failure an error reports. */
  datatype Step =
    | EnterAltScreenFailed | SpawnFailed | WaitFailed
    | EnterRawModeFailed | ReadInputEventFailed | ExitRawModeFailed
    | ExitAltScreenFailed

  /** An `anyhow::Result<()>`, with the error reduced to the step that failed. */
  datatype Outcome = Ok | Err(step: Step)

  datatype TermState = TermState(altScreen: bool, raw: bool)

  /** What one run of a protocol does: what it returns, the effects it
      performs in order, the terminal state it leaves behind and the input
      events it has not consumed. */
  datatype Run = Run(result: Outcome, effects: seq<Effect>, term: TermState, rest: seq<InputEvent>)

  /** The run gets past spawning, waiting and entering raw mode into the read
      loop, given whether a pause is configured. */
  predicate ReachesLoop(o: Oracle, pausing: bool) {
    o.spawn && o.wait.Exited? && pausing && o.enableRaw
  }

  /** Some event ends the read loop: a key event or a read failure. */
  predicate HasStop(input: seq<InputEvent>) {
    exists i | 0 <= i < |input| :: input[i] != Other
  }

  lemma HasStopTail(input: seq<InputEvent>)
    requires HasStop(input) && input[0] == Other
    ensures HasStop(input[1..])
  {
  }

  /** The position of the first event that ends the read loop. */
  function FirstStop(input: seq<InputEvent>): (i: nat)
    requires HasStop(input)
    ensures i < |input| && input[i] != Other
    ensures forall j | 0 <= j < i :: input[j] == Other
  {
    if input[0] != Other then 0
    else
      HasStopTail(input);
      1 + FirstStop(input[1..])
  }

  /** `n` events of kind `Other`. */
  function Others(n: nat): (r: seq<InputEvent>)
    ensures |r| == n
  {
    seq(n, _ => Other)
  }

  /** `n` reads of an input event. */
  function Reads(n: nat): (r: seq<Effect>)
    ensures |r| == n
  {
    seq(n, _ => ReadEvent)
  }

  /** How often `e` occurs in `s`. */
  function Count(s: seq<Effect>, e: Effect): nat {
    if s == [] then 0 else (if s[0] == e then 1 else 0) + Count(s[1..], e)
  }

  lemma {:induction false} CountConcat(a: seq<Effect>, b: seq<Effect>, e: Effect)
    ensures Count(a + b, e) == Count(a, e) + Count(b, e)
  {
    if a == [] {
      assert a + b == b;
    } else {
      assert (a + b)[1..] == a[1..] + b;
      CountConcat(a[1..], b, e);
    }
  }

  lemma {:induction false} CountAbsent(s: seq<Effect>, e: Effect)
    requires e !in s
    ensures Count(s, e) == 0
  {
    if s != [] {
      assert e !in s[1..];
      CountAbsent(s[1..], e);
    }
  }

  class Env {
    var altScreen: bool
    var raw: bool
    /** Every external call made so far, in order. */
    var trace: seq<Effect>
    /** The input events not yet read. */
    var input: seq<InputEvent>
    const oracle: Oracle

    /** A terminal on its normal screen in cooked mode. */
    constructor (oracle: Oracle, input: seq<InputEvent>)
      ensures this.oracle == oracle && this.input == input
      ensures !altScreen && !raw && trace == []
    {
      this.oracle := oracle;
      this.input := input;
      altScreen, raw, trace := false, false, [];
    }

    function Term(): TermState
      reads this
    {
      TermState(altScreen, raw)
    }

    /** Since the pre-state, this object has done exactly what `s` describes
        and answered `r`. */
    twostate predicate Performed(s: Run, r: Outcome)
      reads this
    {
      && r == s.result
      && trace == old(trace) + s.effects
      && Term() == s.term
      && input == s.rest
    }

    /** `execute!(stdout(), EnterAlternateScreen)`. */
    method EnterAlternateScreen() returns (ok: bool)
      modifies this
      ensures ok == oracle.enterAlt
      ensures altScreen == (ok || old(altScreen)) && raw == old(raw)
      ensures trace == old(trace) + [EnterAlt] && input == old(input)
    {
      trace := trace + [EnterAlt];
      ok := oracle.enterAlt;
      if ok {
        altScreen := true;
      }
    }

    /** `execute!(stdout(), LeaveAlternateScreen)`. */
    method LeaveAlternateScreen() returns (ok: bool)
      modifies this
      ensures ok == oracle.leaveAlt
      ensures altScreen == (!ok && old(altScreen)) && raw == old(raw)
      ensures trace == old(trace) + [LeaveAlt] && input == old(input)
    {
      trace := trace + [LeaveAlt];
      ok := oracle.leaveAlt;
      if ok {
        altScreen := false;
      }
    }

    /** `Command::new(command).args(args).spawn()`; the child handle is opaque. */
    method SpawnChild() returns (ok: bool)
      modifies this
      ensures ok == oracle.spawn
      ensures Term() == old(Term()) && trace == old(trace) + [Spawn] && input == old(input)
    {
      trace := trace + [Spawn];
      ok := oracle.spawn;
    }

    /** `child.wait()`: the exit status, or `None` when waiting failed. */
    method WaitChild() returns (status: Option<ExitStatus>)
      modifies this
      ensures status == if oracle.wait.Exited? then Some(oracle.wait.status) else None
      ensures Term() == old(Term()) && trace == old(trace) + [Wait] && input == old(input)
    {
      trace := trace + [Wait];
      status := if oracle.wait.Exited? then Some(oracle.wait.status) else None;
    }

    /** `println!` of the pause prompt. */
    method PrintPrompt()
      modifies this
      ensures Term() == old(Term()) && trace == old(trace) + [Prompt] && input == old(input)
    {
      trace := trace + [Prompt];
    }

    /** `eprintln!` of a warning. */
    method PrintWarning()
      modifies this
      ensures Term() == old(Term()) && trace == old(trace) + [Warn] && input == old(input)
    {
      trace := trace + [Warn];
    }

    /** `enable_raw_mode()`. */
    method EnableRawMode() returns (ok: bool)
      modifies this
      ensures ok == oracle.enableRaw
      ensures raw == (ok || old(raw)) && altScreen == old(altScreen)
      ensures trace == old(trace) + [EnableRaw] && input == old(input)
    {
      trace := trace + [EnableRaw];
      ok := oracle.enableRaw;
      if ok {
        raw := true;
      }
    }

    /** `disable_raw_mode()`. */
    method DisableRawMode() returns (ok: bool)
      modifies this
      ensures ok == oracle.disableRaw
      ensures raw == (!ok && old(raw)) && altScreen == old(altScreen)
      ensures trace == old(trace) + [DisableRaw] && input == old(input)
    {
      trace := trace + [DisableRaw];
      ok := oracle.disableRaw;
      if ok {
        raw := false;
      }
    }

    /** `event::read()`: blocks until the next event arrives and consumes it. */
    method NextEvent() returns (ev: InputEvent)
      requires input != []
      modifies this
      ensures ev == old(input)[0] && input == old(input)[1..]
      ensures Term() == old(Term()) && trace == old(trace) + [ReadEvent]
    {
      trace := trace + [ReadEvent];
      ev := input[0];
      input := input[1..];
    }
  }
}
