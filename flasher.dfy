/**
 * The firmware flasher backend: the script handed to the BSL scripter, the
 * fold over the scripter's output events that decides the flash result, the
 * choice of the event reported to the frontend, and the single-flag lock
 * that keeps two flashes from running at once.
 */
module Flasher {
  import opened Common
  import opened Text

  /** Five ACK-error lines in a row abort the flash. */
  const MAX_CONSECUTIVE_ACK_ERRORS: nat := 5

  /** The exit code reported for an ACK abort; the frontend recognises it. */
  const ACK_ABORT_EXIT_CODE: int := 1000

  /** The marker of an ACK error in the scripter's standard output. */
  const ACK_ERROR_MARKER: string := "[ACK_ERROR_MESSAGE]"

  /** What the scripter's event channel delivers; `OtherEvent` stands for the variants the fold ignores. */
  datatype CommandEvent =
    | Stdout(line: string)
    | Stderr(line: string)
    | Error(message: string)
    | Terminated(code: Option<int>)
    | OtherEvent

  datatype FlashResult = FlashResult(success: bool, exitCode: Option<int>, timedOut: bool)

  /** The result used when the scripter ran out of time. */
  const TIMED_OUT_RESULT: FlashResult := FlashResult(false, None, true)

  // ---------------------------------------------------------------------
  // The script
  // ---------------------------------------------------------------------

  /** The lines of the script, in order, with the port and both paths substituted. */
  function ScriptLines(port: string, firmware: string, password: string): seq<string> {
    ["MODE FRxx UART " + port + " BAUD 9600 PARITY E",
     "DELAY 1000",
     "CHANGE_BAUD_RATE 115200",
     "RX_PASSWORD " + password,
     "RX_DATA_BLOCK " + firmware,
     "SET_PC 0x6586"]
  }

  /**
   * `generate_script`: the script for `port`, each line ended by a newline;
   * a path that is not valid UTF-8 is `None`, and the firmware path is
   * checked first.
   */
  function GenerateScript(port: string, firmwarePath: Option<string>, passwordPath: Option<string>): (r: Result<string, string>)
    ensures firmwarePath.None? ==> r == Err("Invalid firmware path")
    ensures firmwarePath.Some? && passwordPath.None? ==> r == Err("Invalid password path")
    ensures r.Ok? <==> firmwarePath.Some? && passwordPath.Some?
  {
    match firmwarePath
    case None => Err("Invalid firmware path")
    case Some(firmware) =>
      match passwordPath
      case None => Err("Invalid password path")
      case Some(password) => Ok(JoinLines(ScriptLines(port, firmware, password)))
  }

  /**
   * With single-line port and paths the script reads back as exactly six
   * lines: the mode line with the port, the fixed delay and baud-rate lines,
   * the password and firmware lines, and the start address.
   */
  lemma ScriptHasSixLines(port: string, firmware: string, password: string)
    requires '\n' !in port && '\n' !in firmware && '\n' !in password
    ensures GenerateScript(port, Some(firmware), Some(password)).Ok?
    ensures var lines := Lines(GenerateScript(port, Some(firmware), Some(password)).value);
      && |lines| == 6
      && lines[0] == "MODE FRxx UART " + port + " BAUD 9600 PARITY E"
      && lines[1] == "DELAY 1000"
      && lines[2] == "CHANGE_BAUD_RATE 115200"
      && lines[3] == "RX_PASSWORD " + password
      && lines[4] == "RX_DATA_BLOCK " + firmware
      && lines[5] == "SET_PC 0x6586"
    ensures var script := GenerateScript(port, Some(firmware), Some(password)).value;
      |script| > 0 && script[|script| - 1] == '\n'
  {
    ScriptLinesAreSingleLines(port, firmware, password);
    LinesJoinLines(ScriptLines(port, firmware, password));
    JoinLinesEndsWithNewline(ScriptLines(port, firmware, password));
  }

  lemma ScriptLinesAreSingleLines(port: string, firmware: string, password: string)
    requires '\n' !in port && '\n' !in firmware && '\n' !in password
    ensures forall k :: 0 <= k < |ScriptLines(port, firmware, password)| ==> '\n' !in ScriptLines(port, firmware, password)[k]
  {
    NoNewlineIn("MODE FRxx UART ", port, " BAUD 9600 PARITY E");
    NoNewlineIn("RX_PASSWORD ", password, "");
    NoNewlineIn("RX_DATA_BLOCK ", firmware, "");
  }

  lemma NoNewlineIn(a: string, b: string, c: string)
    requires '\n' !in a && '\n' !in b && '\n' !in c
    ensures '\n' !in a + b + c
  {
  }

  // ---------------------------------------------------------------------
  // The output fold
  // ---------------------------------------------------------------------

  /** The ACK-error counter after one standard-output line: up on a marker, back to zero otherwise. */
  function NextAckCount(count: nat, line: string): nat {
    if Contains(line, ACK_ERROR_MARKER) then count + 1 else 0
  }

  /**
   * `handle_bsl_scripter_output` as a function of the events still to
   * come and the current count of consecutive ACK-error lines.
   */
  function Scan(events: seq<CommandEvent>, acks: nat): (r: FlashResult)
    ensures !r.timedOut
    ensures r.success ==> r.exitCode == Some(0)
    decreases |events|
  {
    if events == [] then FlashResult(false, None, false)
    else match events[0]
      case Stdout(line) =>
        var n := NextAckCount(acks, line);
        if n >= MAX_CONSECUTIVE_ACK_ERRORS then FlashResult(false, Some(ACK_ABORT_EXIT_CODE), false)
        else Scan(events[1..], n)
      case Terminated(code) => FlashResult(code == Some(0), code, false)
      case _ => Scan(events[1..], acks)
  }

  /** The fold's loop: read events until one ends it or the channel closes. */
  method HandleBslScripterOutput(events: seq<CommandEvent>) returns (r: FlashResult)
    ensures r == Scan(events, 0)
  {
    var consecutiveAckErrors: nat := 0;
    var i := 0;
    while i < |events|
      invariant i <= |events|
      invariant Scan(events[i..], consecutiveAckErrors) == Scan(events, 0)
    {
      var event := events[i];
      assert events[i..][1..] == events[i + 1..];
      match event {
        case Stdout(line) =>
          if Contains(line, ACK_ERROR_MARKER) {
            consecutiveAckErrors := consecutiveAckErrors + 1;
            if consecutiveAckErrors >= MAX_CONSECUTIVE_ACK_ERRORS {
              return FlashResult(false, Some(ACK_ABORT_EXIT_CODE), false);
            }
          } else {
            consecutiveAckErrors := 0;
          }
        case Stderr(_) =>
        case Error(_) =>
        case Terminated(code) =>
          return FlashResult(code == Some(0), code, false);
        case OtherEvent =>
      }
      i := i + 1;
    }
    return FlashResult(false, None, false);
  }

  /**
   * The counter after a prefix of the stream, stated on its own: each
   * marker line adds one, any other standard-output line resets it, and
   * every other event leaves it alone.
   */
  function Counter(prefix: seq<CommandEvent>): nat {
    if prefix == [] then 0
    else
      var before := Counter(prefix[..|prefix| - 1]);
      match prefix[|prefix| - 1]
      case Stdout(line) => NextAckCount(before, line)
      case _ => before
  }

  /** Event `k` ends the fold: the scripter terminated, or this is the fifth ACK-error line in a row. */
  predicate StopsAt(events: seq<CommandEvent>, k: nat)
    requires k < |events|
  {
    match events[k]
    case Terminated(_) => true
    case Stdout(line) => NextAckCount(Counter(events[..k]), line) >= MAX_CONSECUTIVE_ACK_ERRORS
    case _ => false
  }

  /** The result an event that ends the fold yields. */
  function StopResult(e: CommandEvent): FlashResult {
    match e
    case Terminated(code) => FlashResult(code == Some(0), code, false)
    case _ => FlashResult(false, Some(ACK_ABORT_EXIT_CODE), false)
  }

  /** Past events that did not end the fold, the fold continues with the counter of the prefix. */
  lemma {:induction false} ScanFrom(events: seq<CommandEvent>, i: nat)
    requires i <= |events|
    requires forall j :: 0 <= j < i ==> !StopsAt(events, j)
    ensures Scan(events[i..], Counter(events[..i])) == Scan(events, 0)
  {
    if i == 0 {
      assert events[0..] == events;
    } else {
      ScanFrom(events, i - 1);
      var p := events[..i];
      assert p[..i - 1] == events[..i - 1];
      assert events[i - 1..][1..] == events[i..];
      assert !StopsAt(events, i - 1);
    }
  }

  /**
   * The result of the fold: that of the first event that ends it, or
   * failure without an exit code when the stream closes first.
   */
  lemma ScanOutcome(events: seq<CommandEvent>)
    ensures forall k :: 0 <= k < |events| && StopsAt(events, k) && (forall j :: 0 <= j < k ==> !StopsAt(events, j))
              ==> Scan(events, 0) == StopResult(events[k])
    ensures (forall j :: 0 <= j < |events| ==> !StopsAt(events, j)) ==> Scan(events, 0) == FlashResult(false, None, false)
  {
    forall k | 0 <= k < |events| && StopsAt(events, k) && (forall j :: 0 <= j < k ==> !StopsAt(events, j))
      ensures Scan(events, 0) == StopResult(events[k])
    {
      ScanFrom(events, k);
    }
    if forall j :: 0 <= j < |events| ==> !StopsAt(events, j) {
      ScanFrom(events, |events|);
    }
  }

  /** Standard-error lines and process errors never move the counter. */
  lemma CounterIgnoresErrors(prefix: seq<CommandEvent>, e: CommandEvent)
    requires e.Stderr? || e.Error?
    ensures Counter(prefix + [e]) == Counter(prefix)
  {
    assert (prefix + [e])[..|prefix|] == prefix;
  }

  /** The standard-output lines of an event stream, in order. */
  function StdoutLines(events: seq<CommandEvent>): seq<string> {
    if events == [] then []
    else
      var e := events[|events| - 1];
      StdoutLines(events[..|events| - 1]) + if e.Stdout? then [e.line] else []
  }

  /** How many marker lines end `lines`. */
  function TrailingMarkerRun(lines: seq<string>): (n: nat)
    ensures n <= |lines|
  {
    if lines == [] || !Contains(lines[|lines| - 1], ACK_ERROR_MARKER) then 0
    else 1 + TrailingMarkerRun(lines[..|lines| - 1])
  }

  /** The counter is the length of the run of marker lines that ends the standard output so far. */
  lemma {:induction false} CounterIsTrailingRun(prefix: seq<CommandEvent>)
    ensures Counter(prefix) == TrailingMarkerRun(StdoutLines(prefix))
  {
    if prefix != [] {
      var p := prefix[..|prefix| - 1];
      CounterIsTrailingRun(p);
      var e := prefix[|prefix| - 1];
      if e.Stdout? {
        var lines := StdoutLines(p) + [e.line];
        assert lines[..|lines| - 1] == StdoutLines(p) && lines[|lines| - 1] == e.line;
        assert StdoutLines(prefix) == lines;
        assert Counter(prefix) == NextAckCount(Counter(p), e.line);
      } else {
        assert StdoutLines(prefix) == StdoutLines(p) + [] == StdoutLines(p);
        assert Counter(prefix) == Counter(p);
      }
    }
  }

  /**
   * A standard-output line ends the fold exactly when it completes a run of
   * five marker lines among the standard-output lines; shorter runs never do.
   */
  lemma AckAbortIffRunOfFive(events: seq<CommandEvent>, k: nat)
    requires k < |events| && events[k].Stdout?
    ensures StopsAt(events, k) <==> TrailingMarkerRun(StdoutLines(events[..k + 1])) >= MAX_CONSECUTIVE_ACK_ERRORS
  {
    assert events[..k + 1][..k] == events[..k];
    CounterIsTrailingRun(events[..k + 1]);
  }

  /** A line of standard output that carries the ACK-error marker. */
  predicate IsAckErrorLine(e: CommandEvent) {
    e.Stdout? && Contains(e.line, ACK_ERROR_MARKER)
  }

  /** Enough marker lines in a row to reach the limit abort the fold. */
  lemma {:induction false} MarkerLinesAbort(tail: seq<CommandEvent>, acks: nat)
    requires |tail| > 0 && acks + |tail| >= MAX_CONSECUTIVE_ACK_ERRORS
    requires forall k :: 0 <= k < |tail| ==> IsAckErrorLine(tail[k])
    ensures Scan(tail, acks) == FlashResult(false, Some(ACK_ABORT_EXIT_CODE), false)
    decreases |tail|
  {
    assert IsAckErrorLine(tail[0]);
    if acks + 1 < MAX_CONSECUTIVE_ACK_ERRORS {
      MarkerLinesAbort(tail[1..], acks + 1);
    }
  }

  /**
   * Five marker lines in a row end the fold with the ACK abort, after any
   * prefix that did not end it.
   */
  lemma FiveAckErrorsAbort(prefix: seq<CommandEvent>, tail: seq<CommandEvent>)
    requires |tail| == MAX_CONSECUTIVE_ACK_ERRORS
    requires forall k :: 0 <= k < |tail| ==> IsAckErrorLine(tail[k])
    requires forall j :: 0 <= j < |prefix| ==> !StopsAt(prefix, j)
    ensures Scan(prefix + tail, 0) == FlashResult(false, Some(ACK_ABORT_EXIT_CODE), false)
  {
    var events := prefix + tail;
    var n := |prefix|;
    forall j | 0 <= j < n
      ensures !StopsAt(events, j)
    {
      assert events[..j] == prefix[..j];
      assert events[j] == prefix[j];
      assert !StopsAt(prefix, j);
    }
    ScanFrom(events, n);
    assert events[n..] == tail;
    assert events[..n] == prefix;
    MarkerLinesAbort(tail, Counter(prefix));
  }

  // ---------------------------------------------------------------------
  // Cleanup and the lock
  // ---------------------------------------------------------------------

  /** The event `cleanup_flash` emits to the frontend. */
  datatype BslEvent = BslFinished | BslTimeout | BslFailed(exitCode: Option<int>)

  /** `cleanup_flash`'s choice: success first, then a timeout, otherwise a failure with the exit code. */
  function CleanupEvent(result: FlashResult): (e: BslEvent)
    ensures e == BslFinished <==> result.success
    ensures e == BslTimeout <==> !result.success && result.timedOut
    ensures e.BslFailed? <==> !result.success && !result.timedOut
    ensures e.BslFailed? ==> e.exitCode == result.exitCode
  {
    if result.success then BslFinished
    else if result.timedOut then BslTimeout
    else BslFailed(result.exitCode)
  }

  /** The fold's outcome is reported as finished or failed, never as a timeout. */
  lemma ScanNeverReportsTimeout(events: seq<CommandEvent>)
    ensures CleanupEvent(Scan(events, 0)) != BslTimeout
  {
  }

  /**
   * The application state the flasher touches (`AppData`'s
   * `bsl_flasher_running`), with the events `cleanup_flash` emits to the
   * frontend; the per-line `bsl-stdout` and `bsl-stderr` events are not
   * recorded.
   */
  class App {
    var bslFlasherRunning: bool
    var emitted: seq<BslEvent>

    constructor ()
      ensures !bslFlasherRunning && emitted == []
    {
      bslFlasherRunning := false;
      emitted := [];
    }

    /** `acquire_flasher_lock`: fails, changing nothing, while a flash runs; takes the flag otherwise. */
    method AcquireFlasherLock() returns (r: Result<Unit, string>)
      modifies this
      ensures old(bslFlasherRunning) ==> r == Err("Flasher is already running")
      ensures !old(bslFlasherRunning) ==> r == Ok(Unit)
      ensures bslFlasherRunning && emitted == old(emitted)
    {
      if bslFlasherRunning {
        return Err("Flasher is already running");
      }
      bslFlasherRunning := true;
      return Ok(Unit);
    }

    /** `release_flasher_lock`. */
    method ReleaseFlasherLock()
      modifies this
      ensures !bslFlasherRunning && emitted == old(emitted)
    {
      bslFlasherRunning := false;
    }

    /** `cleanup_flash`: exactly one event to the frontend, then the lock is released. */
    method CleanupFlash(result: FlashResult)
      modifies this
      ensures emitted == old(emitted) + [CleanupEvent(result)]
      ensures !bslFlasherRunning
    {
      if result.success {
        emitted := emitted + [BslFinished];
      } else if result.timedOut {
        emitted := emitted + [BslTimeout];
      } else {
        emitted := emitted + [BslFailed(result.exitCode)];
      }
      ReleaseFlasherLock();
    }

    /**
     * The spawned task: the fold's result when the scripter ends in time,
     * the timed-out result otherwise, then cleanup.
     */
    method FlashTask(events: seq<CommandEvent>, timedOut: bool)
      modifies this
      ensures emitted == old(emitted) + [CleanupEvent(if timedOut then TIMED_OUT_RESULT else Scan(events, 0))]
      ensures !bslFlasherRunning
    {
      var result: FlashResult;
      if timedOut {
        result := TIMED_OUT_RESULT;
      } else {
        result := HandleBslScripterOutput(events);
      }
      CleanupFlash(result);
    }

    /**
     * The `flash` command as written. The failures of the steps it cannot
     * see are parameters: `fileError` for the temporary directory and the
     * firmware and password files, the paths for the script, `writeError`
     * for writing the script file, `sidecarError` and `spawnError` for the
     * scripter. On success the spawned task is run to its end here.
     */
    method FlashAsWritten(port: string, fileError: Option<string>, firmwarePath: Option<string>, passwordPath: Option<string>,
                          writeError: Option<string>,
                          sidecarError: Option<string>, spawnError: Option<string>,
                          events: seq<CommandEvent>, timedOut: bool)
      returns (r: Result<Unit, string>)
      modifies this
      ensures old(bslFlasherRunning) ==> r == Err("Flasher is already running") && bslFlasherRunning && emitted == old(emitted)
      ensures (!old(bslFlasherRunning) && fileError.Some?) ==> r == Err(fileError.value)
      ensures (!old(bslFlasherRunning) && fileError.None? && GenerateScript(port, firmwarePath, passwordPath).Err?) ==>
                r == Err(GenerateScript(port, firmwarePath, passwordPath).error)
      ensures (!old(bslFlasherRunning) && fileError.None? && GenerateScript(port, firmwarePath, passwordPath).Ok?
               && writeError.Some?) ==> r == Err(writeError.value)
      ensures (!old(bslFlasherRunning) && fileError.None? && GenerateScript(port, firmwarePath, passwordPath).Ok?
               && writeError.None? && sidecarError.None? && spawnError.Some?) ==>
                r == Err("Failed to spawn BSL scripter: " + spawnError.value)
      ensures (!old(bslFlasherRunning) && fileError.None? && GenerateScript(port, firmwarePath, passwordPath).Ok?
               && writeError.None? && sidecarError.Some?) ==>
                (r == Err("Failed to create sidecar command: " + sidecarError.value) && bslFlasherRunning && emitted == old(emitted))
      ensures (!old(bslFlasherRunning)
               && (fileError.Some? || GenerateScript(port, firmwarePath, passwordPath).Err? || writeError.Some?
                   || (sidecarError.None? && spawnError.Some?))) ==>
                (r.Err? && !bslFlasherRunning && emitted == old(emitted))
      ensures r.Ok? <==> !old(bslFlasherRunning) && fileError.None? && firmwarePath.Some? && passwordPath.Some?
                         && writeError.None? && sidecarError.None? && spawnError.None?
      ensures r.Ok? ==>
                (!bslFlasherRunning
                 && emitted == old(emitted) + [CleanupEvent(if timedOut then TIMED_OUT_RESULT else Scan(events, 0))])
    {
      r := AcquireFlasherLock();
      if r.Err? {
        return;
      }
      if fileError.Some? {
        ReleaseFlasherLock();
        return Err(fileError.value);
      }
      var script := GenerateScript(port, firmwarePath, passwordPath);
      if script.Err? {
        ReleaseFlasherLock();
        return Err(script.error);
      }
      if writeError.Some? {
        ReleaseFlasherLock();
        return Err(writeError.value);
      }
      if sidecarError.Some? {
        return Err("Failed to create sidecar command: " + sidecarError.value);
      }
      if spawnError.Some? {
        ReleaseFlasherLock();
        return Err("Failed to spawn BSL scripter: " + spawnError.value);
      }
      FlashTask(events, timedOut);
      return Ok(Unit);
    }

    /**
     * The `flash` command with every failure releasing the lock: a call that
     * fails leaves the flag as it found it, and one that succeeds has
     * released it by the time its task ends.
     */
    method Flash(port: string, fileError: Option<string>, firmwarePath: Option<string>, passwordPath: Option<string>,
                 writeError: Option<string>,
                 sidecarError: Option<string>, spawnError: Option<string>,
                 events: seq<CommandEvent>, timedOut: bool)
      returns (r: Result<Unit, string>)
      modifies this
      ensures old(bslFlasherRunning) ==> r == Err("Flasher is already running")
      ensures (!old(bslFlasherRunning) && fileError.Some?) ==> r == Err(fileError.value)
      ensures (!old(bslFlasherRunning) && fileError.None? && GenerateScript(port, firmwarePath, passwordPath).Err?) ==>
                r == Err(GenerateScript(port, firmwarePath, passwordPath).error)
      ensures (!old(bslFlasherRunning) && fileError.None? && GenerateScript(port, firmwarePath, passwordPath).Ok?
               && writeError.Some?) ==> r == Err(writeError.value)
      ensures (!old(bslFlasherRunning) && fileError.None? && GenerateScript(port, firmwarePath, passwordPath).Ok?
               && writeError.None? && sidecarError.None? && spawnError.Some?) ==>
                r == Err("Failed to spawn BSL scripter: " + spawnError.value)
      ensures (!old(bslFlasherRunning) && fileError.None? && GenerateScript(port, firmwarePath, passwordPath).Ok?
               && writeError.None? && sidecarError.Some?) ==>
                r == Err("Failed to create sidecar command: " + sidecarError.value)
      ensures r.Err? ==> bslFlasherRunning == old(bslFlasherRunning) && emitted == old(emitted)
      ensures r.Ok? <==> !old(bslFlasherRunning) && fileError.None? && firmwarePath.Some? && passwordPath.Some?
                         && writeError.None? && sidecarError.None? && spawnError.None?
      ensures r.Ok? ==>
                (!bslFlasherRunning
                 && emitted == old(emitted) + [CleanupEvent(if timedOut then TIMED_OUT_RESULT else Scan(events, 0))])
    {
      r := AcquireFlasherLock();
      if r.Err? {
        return;
      }
      if fileError.Some? {
        ReleaseFlasherLock();
        return Err(fileError.value);
      }
      var script := GenerateScript(port, firmwarePath, passwordPath);
      if script.Err? {
        ReleaseFlasherLock();
        return Err(script.error);
      }
      if writeError.Some? {
        ReleaseFlasherLock();
        return Err(writeError.value);
      }
      if sidecarError.Some? {
        ReleaseFlasherLock();
        return Err("Failed to create sidecar command: " + sidecarError.value);
      }
      if spawnError.Some? {
        ReleaseFlasherLock();
        return Err("Failed to spawn BSL scripter: " + spawnError.value);
      }
      FlashTask(events, timedOut);
      return Ok(Unit);
    }
  }

  /**
   * As written, one failure to create the sidecar command leaves the lock
   * held, so every later flash is refused as already running.
   */
  method SidecarFailureBlocksLaterFlashes(port: string, firmware: string, password: string, e: string, events: seq<CommandEvent>)
    returns (first: Result<Unit, string>, second: Result<Unit, string>)
    ensures first == Err("Failed to create sidecar command: " + e)
    ensures second == Err("Flasher is already running")
  {
    var app := new App();
    first := app.FlashAsWritten(port, None, Some(firmware), Some(password), None, Some(e), None, events, false);
    second := app.FlashAsWritten(port, None, Some(firmware), Some(password), None, None, None, events, false);
  }

  /** With the lock released on that path, the next flash goes ahead. */
  method SidecarFailureThenFlash(port: string, firmware: string, password: string, e: string, events: seq<CommandEvent>)
    returns (first: Result<Unit, string>, second: Result<Unit, string>)
    ensures first.Err?
    ensures second.Ok?
  {
    var app := new App();
    first := app.Flash(port, None, Some(firmware), Some(password), None, Some(e), None, events, false);
    second := app.Flash(port, None, Some(firmware), Some(password), None, None, None, events, false);
  }
}
