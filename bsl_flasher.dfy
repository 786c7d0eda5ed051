/**
 * The frontend side of flashing: how each backend event, a failed invoke
 * and unmounting become a finish reason, and what each reason does to the
 * flashing flag, the progress modal and the caller's callback.
 */
module BslFlasher {
  import opened Common
  import opened Flasher

  datatype FlashFinishReason = Success | Failure | Timeout | Quit | InitError | AckError

  /** The listeners: `bsl-finished`, `bsl-timeout`, and `bsl-failed` split on the ACK abort code. */
  function ReasonFor(e: BslEvent): (r: FlashFinishReason)
    ensures r == AckError <==> e == BslFailed(Some(ACK_ABORT_EXIT_CODE))
    ensures r == Failure <==> e.BslFailed? && e.exitCode != Some(ACK_ABORT_EXIT_CODE)
    ensures r == Success <==> e == BslFinished
    ensures r == Timeout <==> e == BslTimeout
  {
    match e
    case BslFinished => Success
    case BslFailed(code) => if code == Some(ACK_ABORT_EXIT_CODE) then AckError else Failure
    case BslTimeout => Timeout
  }

  /** Reasons after which `cleanup` closes the modal. */
  predicate ClosesModal(reason: FlashFinishReason) {
    reason == Success || reason == InitError
  }

  /** The error `cleanup` patches into the modal, for the reasons that leave it open. */
  function ErrorMessage(reason: FlashFinishReason): Option<string> {
    match reason
    case Success => None
    case InitError => None
    case AckError => Some("Device didn't respond")
    case Timeout => Some("Flash took too long")
    case Failure => Some("Firmware update failed")
    case Quit => Some("Firmware update failed")
  }

  /** A reason closes the modal exactly when it comes with no error text. */
  lemma ClosesModalIffNoError(reason: FlashFinishReason)
    ensures ClosesModal(reason) <==> ErrorMessage(reason).None?
  {
  }

  /**
   * From the backend's result to the frontend's reason: success, then a
   * timeout, then the ACK abort code, and any other failure.
   */
  lemma ReasonOfResult(result: FlashResult)
    ensures ReasonFor(CleanupEvent(result))
         == if result.success then Success
            else if result.timedOut then Timeout
            else if result.exitCode == Some(ACK_ABORT_EXIT_CODE) then AckError
            else Failure
  {
  }

  /** Five ACK-error lines in a row reach the frontend as an ACK error. */
  lemma AckAbortReadsAsAckError(prefix: seq<CommandEvent>, tail: seq<CommandEvent>)
    requires |tail| == MAX_CONSECUTIVE_ACK_ERRORS
    requires forall k :: 0 <= k < |tail| ==> IsAckErrorLine(tail[k])
    requires forall j :: 0 <= j < |prefix| ==> !StopsAt(prefix, j)
    ensures ReasonFor(CleanupEvent(Scan(prefix + tail, 0))) == AckError
  {
    FiveAckErrorsAbort(prefix, tail);
  }

  /** Only the backend's timer produces a timeout reason; the fold alone never does. */
  lemma TimeoutOnlyFromTimer(events: seq<CommandEvent>)
    ensures ReasonFor(CleanupEvent(Scan(events, 0))) != Timeout
    ensures ReasonFor(CleanupEvent(TIMED_OUT_RESULT)) == Timeout
  {
  }

  /** A scripter that itself exits with code 1000 is reported as an ACK error too. */
  lemma ExitCodeThousandReadsAsAckError(prefix: seq<CommandEvent>)
    requires forall j :: 0 <= j < |prefix| ==> !StopsAt(prefix, j)
    ensures ReasonFor(CleanupEvent(Scan(prefix + [Terminated(Some(1000))], 0))) == AckError
  {
    var events := prefix + [Terminated(Some(1000))];
    forall j | 0 <= j < |prefix|
      ensures !StopsAt(events, j)
    {
      assert events[..j] == prefix[..j];
      assert events[j] == prefix[j];
      assert !StopsAt(prefix, j);
    }
    assert StopsAt(events, |prefix|);
    ScanOutcome(events);
  }

  /**
   * `useBSLFlasher`: the flashing flag, the modal's visibility and error
   * text, and the reasons passed to `finishedCallback`, oldest first.
   */
  class BslFlasher {
    var flashing: bool
    var modalOpen: bool
    var modalError: Option<string>
    var finished: seq<FlashFinishReason>

    constructor ()
      ensures !flashing && !modalOpen && modalError.None? && finished == []
    {
      flashing := false;
      modalOpen := false;
      modalError := None;
      finished := [];
    }

    /** `cleanup(reason)`: stop flashing, close the modal or show the error, report the reason once. */
    method Cleanup(reason: FlashFinishReason)
      modifies this
      ensures !flashing
      ensures finished == old(finished) + [reason]
      ensures ClosesModal(reason) ==> !modalOpen && modalError == old(modalError)
      ensures !ClosesModal(reason) ==> modalOpen == old(modalOpen) && modalError == ErrorMessage(reason)
    {
      flashing := false;
      if reason == Success || reason == InitError {
        modalOpen := false;
      } else if reason == AckError {
        modalError := Some("Device didn't respond");
      } else if reason == Timeout {
        modalError := Some("Flash took too long");
      } else {
        modalError := Some("Firmware update failed");
      }
      finished := finished + [reason];
    }

    /**
     * `flash(serialPath)`: mark flashing and open the modal, then invoke the
     * backend; a rejected invoke (`invoke` is its outcome) ends in
     * `cleanup(INIT_ERROR)`.
     */
    method Flash(serialPath: string, invoke: Result<Unit, string>)
      modifies this
      ensures invoke.Ok? ==> flashing && modalOpen && modalError == old(modalError) && finished == old(finished)
      ensures invoke.Err? ==> !flashing && !modalOpen && modalError == old(modalError) && finished == old(finished) + [InitError]
    {
      flashing := true;
      modalOpen := true;
      if invoke.Err? {
        Cleanup(InitError);
      }
    }

    /** A backend event reaching its listener. */
    method OnBackendEvent(e: BslEvent)
      modifies this
      ensures !flashing && finished == old(finished) + [ReasonFor(e)]
      ensures e == BslFinished ==> !modalOpen && modalError == old(modalError)
      ensures e != BslFinished ==> modalOpen == old(modalOpen) && modalError == ErrorMessage(ReasonFor(e))
    {
      match e {
        case BslFinished =>
          Cleanup(Success);
        case BslFailed(code) =>
          if code == Some(ACK_ABORT_EXIT_CODE) {
            Cleanup(AckError);
          } else {
            Cleanup(Failure);
          }
        case BslTimeout =>
          Cleanup(Timeout);
      }
    }

    /** `onUnmounted`: cleanup with `QUIT`. */
    method Unmount()
      modifies this
      ensures !flashing && finished == old(finished) + [Quit]
      ensures modalOpen == old(modalOpen) && modalError == Some("Firmware update failed")
    {
      Cleanup(Quit);
    }
  }

  /**
   * One flash from start to end, backend and frontend together: the
   * event the backend's cleanup emits arrives at the listener, which
   * records the reason the backend's result maps to.
   */
  method FlashRoundTrip(port: string, firmware: string, password: string, events: seq<CommandEvent>, timedOut: bool)
    returns (reason: FlashFinishReason)
    ensures reason == ReasonFor(CleanupEvent(if timedOut then TIMED_OUT_RESULT else Scan(events, 0)))
    ensures timedOut ==> reason == Timeout
    ensures !timedOut ==> reason != Timeout
  {
    var app := new App();
    var ui := new BslFlasher();
    var invoke := app.Flash(port, None, Some(firmware), Some(password), None, None, None, events, timedOut);
    ui.Flash(port, invoke);
    var e := app.emitted[0];
    ui.OnBackendEvent(e);
    reason := ui.finished[0];
  }
}
