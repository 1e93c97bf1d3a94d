/**
 * The redraw loop of a 'screen_webcam' recording (index.tsx:526-541): each
 * animation frame it checks that the session is still recording and that the
 * recorded stream is active, draws the screen with the webcam inset onto the
 * canvas, and asks for the next frame. Only the liveness check is modelled:
 * a run of animation frames is a sequence of ticks, and the result is how
 * many frames get drawn before the loop ends.
 *
 * As written, the check reads the `isRecording` value captured when the
 * start handler was entered, and that handler only gets this far when the
 * value was false; so the loop ends on its first call and the canvas that is
 * being recorded is never drawn. The corrected loop reads the session's
 * current state at each frame.
 */
module Compositor {
  import Capture

  /** What one animation frame sees: the session's current recording flag and whether the recorded stream is active. */
  datatype Tick = Tick(recording: bool, streamActive: bool)

  /** The frame passes the liveness check when the flag it consults is set and the stream is active. */
  predicate Passes(flag: bool, t: Tick)
  {
    flag && t.streamActive
  }

  /** The check as written: every frame consults the same captured flag. */
  function FramesDrawnAsWritten(captured: bool, ticks: seq<Tick>): (n: nat)
    ensures n <= |ticks|
    ensures !captured ==> n == 0
  {
    if ticks == [] || !Passes(captured, ticks[0]) then 0
    else 1 + FramesDrawnAsWritten(captured, ticks[1..])
  }

  /** The evidently intended check: every frame consults the session's state at that frame. */
  function FramesDrawn(ticks: seq<Tick>): (n: nat)
    ensures n <= |ticks|
    ensures forall i :: 0 <= i < n ==> Passes(ticks[i].recording, ticks[i])
    ensures n < |ticks| ==> !Passes(ticks[n].recording, ticks[n])
  {
    if ticks == [] || !Passes(ticks[0].recording, ticks[0]) then 0
    else 1 + FramesDrawn(ticks[1..])
  }

  /**
   * The frames the start handler's loop draws, given the session state the
   * handler was entered in: none when it returned at the guard, and the
   * as-written count over the captured flag otherwise.
   */
  function DrawnAfterStart(entry: Capture.SessionState, ticks: seq<Tick>): nat
  {
    if entry.isRecording then 0 else FramesDrawnAsWritten(entry.isRecording, ticks)
  }

  /** Whatever the session and the frames, the loop as written draws nothing. */
  lemma NothingDrawnAsWritten(entry: Capture.SessionState, ticks: seq<Tick>)
    ensures DrawnAfterStart(entry, ticks) == 0
  {
  }

  /** A recording whose first frame is live: the corrected loop draws it, the loop as written does not. */
  lemma LiveFrameMissed(entry: Capture.SessionState, ticks: seq<Tick>)
    requires ticks != [] && ticks[0].recording && ticks[0].streamActive
    ensures FramesDrawn(ticks) >= 1
    ensures DrawnAfterStart(entry, ticks) == 0
  {
    NothingDrawnAsWritten(entry, ticks);
  }

  /** The corrected loop draws exactly the frames up to the first one where recording stopped or the stream ended. */
  lemma FramesDrawnIsLivePrefix(ticks: seq<Tick>, n: nat)
    requires n <= |ticks|
    requires forall i :: 0 <= i < n ==> ticks[i].recording && ticks[i].streamActive
    requires n < |ticks| ==> !(ticks[n].recording && ticks[n].streamActive)
    ensures FramesDrawn(ticks) == n
  {
  }

  /** Had the captured flag stayed equal to the session's flag, the loop as written would agree with the corrected one. */
  lemma {:induction false} AsWrittenAgreesWhileFlagCurrent(captured: bool, ticks: seq<Tick>)
    requires forall i :: 0 <= i < |ticks| ==> ticks[i].recording == captured
    ensures FramesDrawnAsWritten(captured, ticks) == FramesDrawn(ticks)
  {
    if ticks != [] && Passes(captured, ticks[0]) {
      AsWrittenAgreesWhileFlagCurrent(captured, ticks[1..]);
    }
  }
}
