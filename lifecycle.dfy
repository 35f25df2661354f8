/** The running flag of a camera, pause or audio action, frame by frame.

    Once begun, such an action is updated once per frame; each frame the engine
    supplies one completion signal (the camera move has finished, the pause
    timer has run out, the audio source is no longer playing). The first signal
    clears the flag and nothing but the next Begin sets it again. The lemmas
    below say what a whole run of frames reports.
 */
module Lifecycle {

  /** One call of Update: the completion signal clears the flag, otherwise it
      is kept. */
  function Step(running: bool, finished: bool): (next: bool)
  {
    if finished then false else running
  }

  /** The flag after one Update per signal, in order. */
  function RunningAfter(running: bool, signals: seq<bool>): (after: bool)
    decreases |signals|
  {
    if |signals| == 0 then running
    else RunningAfter(Step(running, signals[0]), signals[1..])
  }

  /** The values Update returns, one per signal, in order. */
  function Reports(running: bool, signals: seq<bool>): (r: seq<bool>)
    ensures |r| == |signals|
    decreases |signals|
  {
    if |signals| == 0 then []
    else
      var next := Step(running, signals[0]);
      [next] + Reports(next, signals[1..])
  }

  /** No frame of the run saw the completion signal. */
  predicate NoSignal(signals: seq<bool>)
  {
    forall i :: 0 <= i < |signals| ==> !signals[i]
  }

  /** After a run of frames the action is still running exactly when it was
      running before and no frame saw the completion signal. */
  lemma {:induction false} RunningUntilSignal(running: bool, signals: seq<bool>)
    ensures RunningAfter(running, signals) <==> running && NoSignal(signals)
    decreases |signals|
  {
    if |signals| > 0 {
      RunningUntilSignal(Step(running, signals[0]), signals[1..]);
      assert NoSignal(signals) <==> !signals[0] && NoSignal(signals[1..]) by {
        if !signals[0] && NoSignal(signals[1..]) {
          forall i | 0 <= i < |signals| ensures !signals[i] {
            if i > 0 { assert signals[i] == signals[1..][i - 1]; }
          }
        }
      }
    }
  }

  /** What Update returns in frame i is the flag after the first i + 1 frames. */
  lemma {:induction false} ReportAt(running: bool, signals: seq<bool>, i: nat)
    requires i < |signals|
    ensures Reports(running, signals)[i] == RunningAfter(running, signals[..i + 1])
    decreases i
  {
    var next := Step(running, signals[0]);
    assert signals[..i + 1][0] == signals[0];
    if i == 0 {
      assert signals[..1][1..] == [];
    } else {
      ReportAt(next, signals[1..], i - 1);
      assert signals[1..][..i] == signals[..i + 1][1..];
    }
  }

  /** An action that has stopped reports false in every later frame: once
      false, the flag stays false until the next Begin. */
  lemma {:induction false} StoppedStaysStopped(signals: seq<bool>, i: nat)
    requires i < |signals|
    ensures !Reports(false, signals)[i]
  {
    ReportAt(false, signals, i);
    RunningUntilSignal(false, signals[..i + 1]);
  }

  /** Right after Begin (flag true), Update returns true in frame i exactly
      when none of frames 0..i saw the completion signal. */
  lemma {:induction false} RunningUntilFirstSignal(signals: seq<bool>, i: nat)
    requires i < |signals|
    ensures Reports(true, signals)[i] <==> NoSignal(signals[..i + 1])
  {
    ReportAt(true, signals, i);
    RunningUntilSignal(true, signals[..i + 1]);
  }

  /** The reported flag never rises again: a frame that reports true is
      preceded only by frames that reported true. */
  lemma {:induction false} ReportsMonotone(running: bool, signals: seq<bool>, i: nat, j: nat)
    requires i <= j < |signals|
    requires Reports(running, signals)[j]
    ensures Reports(running, signals)[i]
  {
    ReportAt(running, signals, i);
    ReportAt(running, signals, j);
    RunningUntilSignal(running, signals[..i + 1]);
    RunningUntilSignal(running, signals[..j + 1]);
    var shorter, longer := signals[..i + 1], signals[..j + 1];
    assert forall k :: 0 <= k < |shorter| ==> shorter[k] == longer[k];
  }

  /** One more frame extends a run: the flag takes one more Step and the
      reports gain the flag that Step returns. */
  lemma {:induction false} Snoc(running: bool, signals: seq<bool>, x: bool)
    ensures RunningAfter(running, signals + [x]) == Step(RunningAfter(running, signals), x)
    ensures Reports(running, signals + [x]) == Reports(running, signals) + [Step(RunningAfter(running, signals), x)]
    decreases |signals|
  {
    if |signals| == 0 {
      assert [x][1..] == [];
    } else {
      assert (signals + [x])[1..] == signals[1..] + [x];
      Snoc(Step(running, signals[0]), signals[1..], x);
    }
  }

  /** Frame i of a run, stated on prefixes: the form a loop over the frames
      needs. */
  lemma RunOneMoreFrame(running: bool, signals: seq<bool>, i: nat)
    requires i < |signals|
    ensures RunningAfter(running, signals[..i + 1]) == Step(RunningAfter(running, signals[..i]), signals[i])
    ensures Reports(running, signals[..i + 1]) ==
              Reports(running, signals[..i]) + [Step(RunningAfter(running, signals[..i]), signals[i])]
  {
    assert signals[..i + 1] == signals[..i] + [signals[i]];
    Snoc(running, signals[..i], signals[i]);
  }
}
