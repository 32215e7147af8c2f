# altscr: running a command inside the terminal's alternate screen

`altscr` switches the terminal to its alternate screen buffer and runs a
command there as a child process. It waits for the child to finish and can
then pause until one key event arrives (a press, repeat or release). Finally it switches back to the normal
screen. This project models the sequencing of those terminal and process calls
in Dafny, in two versions:

- **the library** (`run_in_alt_screen_buf` and `run_and_pause` in
  `src/lib.rs`). Once the alternate screen has been entered, it always tries
  to leave it. A failure to leave only prints a warning. The result of
  `run_and_pause` is returned unchanged.
- **the binary's `main`** (`src/main.rs`). This is a separate copy in
  which every failure returns at once. Any failure after entering the
  alternate screen therefore skips leaving it.

Every external effect is replaced by an abstract environment, the class
`Terminal.Env`. It holds:

- the terminal state (`altScreen`, `raw`);
- a trace of the effects attempted so far (`EnterAlt`, `LeaveAlt`, `Spawn`,
  `Wait`, `Prompt`, `EnableRaw`, `ReadEvent`, `DisableRaw`, `Warn`);
- the input events not read yet (`Key`, `Other`, `ReadError`);
- an `Oracle` that decides whether each crossterm or process call succeeds,
  and which exit status the child reports.

Each Rust function becomes a method that makes these calls in the source's
order, with the same early returns that `?` produces. Each method is proved
to do exactly what a pure function says it does (`ExpectedWaitForKey`,
`ExpectedPause`, `ExpectedRunAndPause`, `ExpectedRunInAltScreenBuf`,
`ExpectedMain`). That function gives the result, the effects in order, the
final terminal state and the input left unread, all as a function of the
oracle, the starting terminal state and the input. The lemmas then prove the
protocol's promises about these functions: what is always or never
attempted, in which order, and what the result is.

Modules:

- `terminal.dfy`, module `Terminal`: the environment, the effects, the
  errors, and `FirstStop`, which finds the event that ends the key-wait loop.
- `altscr_lib.dfy`, module `AltscrLib`: `PauseConfig`, the key-wait loop,
  the pause, `run_and_pause`, `run_in_alt_screen_buf`, and their properties.
- `altscr_bin.dfy`, module `AltscrBin`: `main` after argument parsing, its
  properties, and two lemmas that compare it with the library.

The pause block in `main` (src/main.rs:37-48) is the library's pause
(src/lib.rs:52-65) with the prompt always printed. Both are modelled by
`AltscrLib.Pause`; `main` calls it with `silent == false`.

Some facts about the code that shape the model:

- `run_in_alt_screen_buf`, `run_and_pause` and `main` each return a single
  `anyhow::Result<()>`. An error is reduced to the step that failed.
- A failed `disable_raw_mode` is returned as that result's error, through `?`.
- The child's exit status is obtained and dropped (the `TODO` at
  src/lib.rs:37). No exit code is derived from it.
- The binary's `--pause` flag is a plain `bool` (src/main.rs:12-13).
- In `main`, every failure returns at once and skips all cleanup.

## Model

| member | source | states |
|---|---|---|
| Terminal.FirstStop | src/lib.rs:57-63 | the position of the first event that is not a key-less `Other` event: it is a key or a read failure, and every event before it is `Other` |
| Terminal.Env.EnterAlternateScreen | src/lib.rs:23 | entering the alternate screen is recorded; on success the terminal is in the alternate screen, and on failure nothing changes |
| Terminal.Env.LeaveAlternateScreen | src/lib.rs:29 | leaving the alternate screen is recorded; on success the terminal is back on the normal screen, and on failure nothing changes |
| Terminal.Env.SpawnChild | src/lib.rs:43-46 | the spawn is recorded and succeeds exactly as the oracle says; the terminal is untouched |
| Terminal.Env.WaitChild | src/lib.rs:48-50 | the wait is recorded and yields the oracle's exit status, or nothing when waiting fails |
| Terminal.Env.PrintPrompt | src/lib.rs:54 | one prompt line is recorded and nothing else changes |
| Terminal.Env.PrintWarning | src/lib.rs:30-31 | one warning line on stderr is recorded and nothing else changes |
| Terminal.Env.EnableRawMode | src/lib.rs:56 | enabling raw mode is recorded; on success raw mode is on, and on failure nothing changes |
| Terminal.Env.NextEvent | src/lib.rs:59 | the event read is the first unread input event, and it is consumed |
| Terminal.Env.DisableRawMode | src/lib.rs:64 | disabling raw mode is recorded; on success raw mode is off, and on failure nothing changes |
| AltscrLib.WaitForKey | src/lib.rs:57-63 | the loop reads events up to and including the first key or read failure and no further; it returns `Ok` on a key and the read error otherwise, with raw mode and screen unchanged |
| AltscrLib.Pause | src/lib.rs:52-65 | prompt unless silent, enable raw mode, wait for a key, disable raw mode; each failure returns at once with its own error |
| AltscrLib.RunAndPause | src/lib.rs:38-68 | spawn, wait, then the configured pause; a spawn or wait failure returns before anything further; the exit status is dropped |
| AltscrLib.RunInAltScreenBuf | src/lib.rs:18-35 | enter the alternate screen (returning at once on failure), run and pause, always try to leave, warn if leaving fails, and return the run's result |
| AltscrLib.WaitForKeyConsumption | src/lib.rs:57-63 | the loop consumes only `Other` events followed by exactly one key or read failure, leaving the rest unread; it succeeds exactly when that event is a key |
| AltscrLib.WaitForKeyStopsAtFirstStop | src/lib.rs:57-63 | any number of non-key events followed by a key (or a read failure) gives exactly that many plus one reads and leaves the tail unread |
| AltscrLib.EnterAltScreenFailureStopsAll | src/lib.rs:23-25 | if entering the alternate screen fails, that error is returned and nothing else is attempted: no spawn, no raw-mode call, no leave |
| AltscrLib.PauseStaysInside | src/lib.rs:52-65 | the pause never touches the alternate screen or warns; it succeeds exactly when enabling raw mode succeeds, the first stopping event is a key and disabling raw mode succeeds |
| AltscrLib.RunAndPauseStaysInside | src/lib.rs:38-68 | `run_and_pause` never enters or leaves the alternate screen and never warns |
| AltscrLib.LeaveAltScreenAttemptedOnce | src/lib.rs:27-32 | once entry succeeded, entering and leaving each happen exactly once, leaving comes last (followed only by the warning), and the screen ends normal exactly when leaving succeeds, whatever `run_and_pause` returned |
| AltscrLib.LeaveAltScreenFailureOnlyWarns | src/lib.rs:27-34 | the result is `run_and_pause`'s result, is the same whether leaving succeeds or fails, is never a leave error, and a warning appears exactly when leaving failed |
| AltscrLib.SpawnOrWaitFailureSkipsPause | src/lib.rs:43-50 | a spawn failure returns before waiting; a spawn or wait failure returns its own error before any prompt, raw-mode call or read, with terminal and input untouched |
| AltscrLib.ExitStatusIrrelevant | src/lib.rs:48-50 | replacing the child's exit status with any other changes nothing about the run |
| AltscrLib.NoPauseNeverTouchesRaw | src/lib.rs:48-67 | with no pause, a successful wait gives `Ok` for every exit status; no prompt, raw-mode call or read happens, and raw mode and the input are untouched |
| AltscrLib.PromptIffNotSilent | src/lib.rs:52-55 | the prompt is printed exactly when the run reaches a configured pause that is not silent; the default `PauseConfig` prints it |
| AltscrLib.PauseBalancesRawMode | src/lib.rs:56-64 | when the alternate screen is entered, the child is spawned and waited for, raw mode is switched on, a key arrives before any read failure and raw mode is switched off, the run returns `Ok`, raw mode is enabled exactly once and disabled exactly once, and it is off before the alternate screen is left |
| AltscrLib.PauseSuccessRun | src/lib.rs:52-65 | a pause that gets through performs the optional prompt, one raw-mode switch on, a read of every event up to and including the first key, one raw-mode switch off, returns `Ok` and leaves raw mode off with the events after that key unread |
| AltscrLib.EarlyPauseFailureSkipsDisable | src/lib.rs:56-64 | an enable failure or a read failure returns that error and skips `disable_raw_mode`; after a read failure raw mode stays on; leaving the alternate screen is still attempted |
| AltscrBin.RunMain | src/main.rs:25-53 | enter the alternate screen, spawn, wait, pause with prompt if the flag is set, and leave; every failure returns at once with its own error |
| AltscrBin.MainEnterFailureStopsAll | src/main.rs:25-26 | if entering the alternate screen fails, nothing else happens and that error is returned |
| AltscrBin.MainLeavesOnlyAfterSuccess | src/main.rs:28-51 | leaving the alternate screen is attempted exactly when every earlier step succeeded, and then exactly once and last |
| AltscrBin.MainFailureSkipsCleanup | src/main.rs:28-48 | a failure of spawn, wait, enable-raw, read or disable-raw returns exactly that step's error (the first one to fail) and leaves the terminal in the alternate screen, with no attempt to leave it |
| AltscrBin.MainPauseDiscipline | src/main.rs:37-39 | without the flag there is no prompt, no raw-mode call and no read; with it, the prompt is printed right after the wait and before raw mode is enabled |
| AltscrBin.MainLeaveFailureIsReturned | src/main.rs:50-51 | a failure to leave the alternate screen is the returned error, and no warning is printed |
| AltscrBin.MainIgnoresExitStatus | src/main.rs:33-53 | whenever every terminal and process call succeeds, the result is `Ok` and the terminal is back on the normal screen (and out of raw mode after a pause), whatever the exit status |
| AltscrBin.SameRunWithoutFailures | src/main.rs:25-53 | when nothing fails, `main` and `run_in_alt_screen_buf` return the same result, perform the same effects and leave the same terminal state |
| AltscrBin.OnlyLibraryCleansUpAfterFailure | src/main.rs:28-51 | after a failure between entering and leaving, both versions return the same error, but only the library tries to leave the alternate screen |

## Left out

- Argument parsing (`Cli`, `Cli::parse`, src/main.rs:10-23), and the command and arguments passed to the child. The child is opaque: only whether spawning and waiting succeed matters, and that is the oracle's choice.
- crossterm's escape sequences, the termios changes behind raw mode, and the terminal device itself. Each call is reduced to success or failure. A failed call is assumed to leave the terminal state as it was.
- The text of messages and of `anyhow` errors. An error is reduced to the step that failed. The error text at src/lib.rs:64 says "enter raw mode" for a disable failure; the model tags that failure `ExitRawModeFailed`.
- What the Rust runtime does with the error `main` returns (it prints it and exits with status 1).
- Exit-code mapping: the exit status is dropped, so no exit code is derived from it.
- Terminal input that never delivers a key or a read error. The source then blocks in `event::read` forever. Every member that may reach the read loop requires that a key or read error eventually arrives (`HasStop`), so the model describes only runs that end.
- Timing and blocking. Waiting for the child and for an event is modelled only as taking the next oracle answer or input event.
- Repeated calls. Each external call other than reading an event is made at most once per run, so the oracle gives one answer per kind of call.
- Failing writes to stdout or stderr. Printing the prompt (src/lib.rs:54, src/main.rs:38) and the warning (src/lib.rs:31) is assumed never to fail. In Rust, `println!` and `eprintln!` panic when the write fails. `run_in_alt_screen_buf` has no drop guard, so a panic while printing the prompt unwinds past the leave step at src/lib.rs:29. `LeaveAltScreenAttemptedOnce` holds only for runs that return.
