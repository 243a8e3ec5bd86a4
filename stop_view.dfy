/**
 * The screen shown while the sounds play (`StopView`): a stopwatch ticking
 * once a second, completion handlers on the two audio players installed once,
 * and a teardown (`stopAndDismiss`) run from the Back button or once both
 * players have finished. The players are reduced to whether they play and the
 * completion handler installed on them; the heart-rate manager is the phone
 * controller, so the teardown also closes and saves the current session.
 * `dismiss()` after its short delay is counted, not run, and `Date()` is the
 * `now` the caller passes.
 */
module StopViewModel {
  import opened Wrappers
  import opened Timing
  import opened Messages
  import opened HeartRateSessionModel
  import PhoneController

  /** Which of the two players a completion handler marks as stopped. */
  datatype PlayerId = First | Second

  /** An audio player: playing or not, and the completion handler installed on
      it, named by the flag it sets. */
  class Player {
    var isPlaying: bool
    var onPlaybackComplete: Option<PlayerId>

    constructor (playing: bool)
      ensures isPlaying == playing && onPlaybackComplete == None
    {
      isPlaying, onPlaybackComplete := playing, None;
    }

    /** `stop()` */
    method Stop()
      modifies this`isPlaying
      ensures !isPlaying
    {
      isPlaying := false;
    }
  }

  // ----- the stopwatch -----

  /** One firing of the stopwatch timer: `seconds += 1`, or a carry into the
      minutes at 59. */
  function StopwatchTick(minutes: int, seconds: int): (r: (int, int)) {
    if seconds < 59 then (minutes, seconds + 1) else (minutes + 1, 0)
  }

  /** A tick keeps the seconds within 0..59 and advances the elapsed time by
      exactly one second. */
  lemma StopwatchTickAdvances(minutes: int, seconds: int)
    requires 0 <= seconds <= 59
    ensures var (m, s) := StopwatchTick(minutes, seconds);
      0 <= s <= 59 && m * 60 + s == minutes * 60 + seconds + 1 && m >= minutes
  {
  }

  function StopwatchTicks(minutes: int, seconds: int, k: nat): (int, int) {
    if k == 0 then (minutes, seconds)
    else var (m, s) := StopwatchTicks(minutes, seconds, k - 1); StopwatchTick(m, s)
  }

  /** After k ticks from zero the stopwatch shows k seconds, split into
      minutes and seconds. */
  lemma {:induction false} StopwatchShowsElapsed(k: nat)
    ensures var (m, s) := StopwatchTicks(0, 0, k); 0 <= s <= 59 && m * 60 + s == k
  {
    if k > 0 {
      StopwatchShowsElapsed(k - 1);
      var (m, s) := StopwatchTicks(0, 0, k - 1);
      StopwatchTickAdvances(m, s);
    }
  }

  // ----- the completion gate -----

  /** What the completion handlers see and do: the two flags, whether each
      handler is still installed, and how many teardowns ran. */
  datatype Gate = Gate(stopped1: bool, stopped2: bool, armed1: bool, armed2: bool, teardowns: nat)

  const Armed: Gate := Gate(false, false, true, true, 0)

  /** The teardown's effect on the gate: both handlers cleared. */
  function Teardown(g: Gate): Gate {
    g.(armed1 := false, armed2 := false, teardowns := g.teardowns + 1)
  }

  /** A player finishing: if its handler is installed, its flag is set and the
      teardown runs once both flags are. */
  function Completion(g: Gate, p: PlayerId): Gate {
    match p
    case First =>
      if !g.armed1 then g
      else var g1 := g.(stopped1 := true); if g1.stopped1 && g1.stopped2 then Teardown(g1) else g1
    case Second =>
      if !g.armed2 then g
      else var g1 := g.(stopped2 := true); if g1.stopped1 && g1.stopped2 then Teardown(g1) else g1
  }

  function Completions(g: Gate, ps: seq<PlayerId>): Gate
    decreases |ps|
  {
    if ps == [] then g else Completion(Completions(g, ps[..|ps| - 1]), ps[|ps| - 1])
  }

  /**
   * From freshly installed handlers, whatever the order and repetitions of
   * the players finishing: each flag records whether its player finished, the
   * teardown runs once exactly when both did and never more than once, and
   * it leaves no handler installed.
   */
  lemma {:induction false} CompletionGateOnce(ps: seq<PlayerId>)
    ensures var g := Completions(Armed, ps);
      && g.stopped1 == (First in ps)
      && g.stopped2 == (Second in ps)
      && g.teardowns == (if First in ps && Second in ps then 1 else 0)
      && g.armed1 == g.armed2 == !(First in ps && Second in ps)
    decreases |ps|
  {
    if ps != [] {
      var init := ps[..|ps| - 1];
      CompletionGateOnce(init);
      assert ps == init + [ps[|ps| - 1]];
      assert First in ps <==> First in init || ps[|ps| - 1] == First;
      assert Second in ps <==> Second in init || ps[|ps| - 1] == Second;
    }
  }

  // ----- the view -----

  class StopView {
    var minutes: int
    var seconds: int
    var timer: Option<TimerHandle>
    var player1Stopped: bool
    var player2Stopped: bool
    var hasSetupCompletionHandlers: bool
    var dismissals: nat
    const bpmManager: PhoneController.HeartRateController
    const avPlayer1: Player
    const avPlayer2: Player
    const runLoop: RunLoop

    /** The stopwatch shows 0..59 seconds; the view's timer, if any, is live;
        each player carries at most its own handler, and none before setup. */
    ghost predicate Valid()
      reads this, avPlayer1, avPlayer2, runLoop
    {
      && avPlayer1 != avPlayer2
      && runLoop.Valid()
      && 0 <= seconds <= 59 && minutes >= 0
      && (timer.Some? ==> timer.value in runLoop.live)
      && (avPlayer1.onPlaybackComplete == None || avPlayer1.onPlaybackComplete == Some(First))
      && (avPlayer2.onPlaybackComplete == None || avPlayer2.onPlaybackComplete == Some(Second))
      && (!hasSetupCompletionHandlers ==> avPlayer1.onPlaybackComplete == None && avPlayer2.onPlaybackComplete == None)
    }

    /** The view's part in the completion gate. */
    ghost function GateOf(): Gate
      reads this, avPlayer1, avPlayer2
    {
      Gate(player1Stopped, player2Stopped, avPlayer1.onPlaybackComplete.Some?,
           avPlayer2.onPlaybackComplete.Some?, dismissals)
    }

    constructor (bpmManager: PhoneController.HeartRateController, avPlayer1: Player, avPlayer2: Player, runLoop: RunLoop)
      requires avPlayer1 != avPlayer2 && runLoop.Valid()
      requires avPlayer1.onPlaybackComplete == None && avPlayer2.onPlaybackComplete == None
      ensures Valid()
      ensures this.bpmManager == bpmManager && this.avPlayer1 == avPlayer1
      ensures this.avPlayer2 == avPlayer2 && this.runLoop == runLoop
      ensures minutes == 0 && seconds == 0 && timer == None && dismissals == 0
      ensures !player1Stopped && !player2Stopped && !hasSetupCompletionHandlers
    {
      minutes, seconds, timer := 0, 0, None;
      player1Stopped, player2Stopped, hasSetupCompletionHandlers := false, false, false;
      dismissals := 0;
      this.bpmManager, this.avPlayer1, this.avPlayer2, this.runLoop := bpmManager, avPlayer1, avPlayer2, runLoop;
    }

    /** `setupView()` (on appear): start the stopwatch; install the completion
        handlers the first time only. */
    method SetupView()
      requires Valid()
      modifies this`minutes, this`seconds, this`timer, this`hasSetupCompletionHandlers
      modifies runLoop, avPlayer1`onPlaybackComplete, avPlayer2`onPlaybackComplete
      ensures Valid() && hasSetupCompletionHandlers
      ensures minutes == 0 && seconds == 0
      ensures timer.Some? && timer.value !in old(runLoop.live) && runLoop.live == old(runLoop.live) + {timer.value}
      ensures old(hasSetupCompletionHandlers) ==>
        avPlayer1.onPlaybackComplete == old(avPlayer1.onPlaybackComplete) &&
        avPlayer2.onPlaybackComplete == old(avPlayer2.onPlaybackComplete)
      ensures !old(hasSetupCompletionHandlers) ==>
        avPlayer1.onPlaybackComplete == Some(First) && avPlayer2.onPlaybackComplete == Some(Second)
    {
      StartTimer();
      if !hasSetupCompletionHandlers {
        SetupCompletionHandlers();
        hasSetupCompletionHandlers := true;
      }
    }

    /** `cleanup()` (on disappear, and first in the teardown): stop the
        stopwatch's timer, if any. A second call changes nothing. */
    method Cleanup()
      requires Valid()
      modifies this`timer, runLoop`live
      ensures Valid() && timer == None
      ensures runLoop.live == old(runLoop.live) - (if old(timer).Some? then {old(timer).value} else {})
    {
      if timer.Some? {
        runLoop.Invalidate(timer.value);
      }
      timer := None;
    }

    /** `setupCompletionHandlers()` */
    method SetupCompletionHandlers()
      requires avPlayer1 != avPlayer2
      modifies avPlayer1`onPlaybackComplete, avPlayer2`onPlaybackComplete
      ensures avPlayer1.onPlaybackComplete == Some(First) && avPlayer2.onPlaybackComplete == Some(Second)
    {
      avPlayer1.onPlaybackComplete := Some(First);
      avPlayer2.onPlaybackComplete := Some(Second);
    }

    /** `startTimer()`: reset the stopwatch and schedule its timer. An earlier
        timer of the view is not invalidated and stays live. */
    method StartTimer()
      requires Valid()
      modifies this`minutes, this`seconds, this`timer, runLoop
      ensures Valid()
      ensures minutes == 0 && seconds == 0
      ensures timer.Some? && timer.value !in old(runLoop.live) && runLoop.live == old(runLoop.live) + {timer.value}
    {
      minutes := 0;
      seconds := 0;
      var t := runLoop.Schedule();
      timer := Some(t);
    }

    /** One firing of a live stopwatch timer. */
    method Tick(t: TimerHandle)
      requires Valid() && t in runLoop.live
      modifies this`minutes, this`seconds
      ensures Valid()
      ensures (minutes, seconds) == StopwatchTick(old(minutes), old(seconds))
      ensures minutes * 60 + seconds == old(minutes) * 60 + old(seconds) + 1
    {
      StopwatchTickAdvances(minutes, seconds);
      if seconds < 59 {
        seconds := seconds + 1;
      } else {
        minutes := minutes + 1;
        seconds := 0;
      }
    }

    /**
     * `stopAndDismiss()`: stop the stopwatch, clear both completion handlers,
     * stop both players, stop the heart-rate stream once and dismiss once.
     */
    method StopAndDismiss(now: Timestamp)
      requires Valid()
      modifies this`timer, this`dismissals, runLoop`live
      modifies avPlayer1`onPlaybackComplete, avPlayer2`onPlaybackComplete, avPlayer1`isPlaying, avPlayer2`isPlaying
      modifies bpmManager.wc`outbox
      modifies if bpmManager.currentSession != null then {bpmManager.currentSession} else {}
      modifies if bpmManager.modelContext != null then {bpmManager.modelContext} else {}
      ensures Valid() && timer == None
      ensures runLoop.live == old(runLoop.live) - (if old(timer).Some? then {old(timer).value} else {})
      ensures avPlayer1.onPlaybackComplete == None && avPlayer2.onPlaybackComplete == None
      ensures !avPlayer1.isPlaying && !avPlayer2.isPlaying
      ensures bpmManager.StoppedAt(now)
      ensures dismissals == old(dismissals) + 1
    {
      ReleasePlayers();
      bpmManager.StopHeartRate(now);
      dismissals := dismissals + 1;
    }

    /** The view's own part of the teardown: stop the stopwatch, clear both
        completion handlers and stop both players. */
    method ReleasePlayers()
      requires Valid()
      modifies this`timer, runLoop`live
      modifies avPlayer1`onPlaybackComplete, avPlayer2`onPlaybackComplete, avPlayer1`isPlaying, avPlayer2`isPlaying
      ensures Valid() && timer == None
      ensures runLoop.live == old(runLoop.live) - (if old(timer).Some? then {old(timer).value} else {})
      ensures avPlayer1.onPlaybackComplete == None && avPlayer2.onPlaybackComplete == None
      ensures !avPlayer1.isPlaying && !avPlayer2.isPlaying
    {
      Cleanup();
      avPlayer1.onPlaybackComplete := None;
      avPlayer2.onPlaybackComplete := None;
      avPlayer1.Stop();
      avPlayer2.Stop();
    }

    /** `checkIfBothPlayersStopped()` */
    method CheckIfBothPlayersStopped(now: Timestamp)
      requires Valid()
      modifies this`timer, this`dismissals, runLoop`live
      modifies avPlayer1`onPlaybackComplete, avPlayer2`onPlaybackComplete, avPlayer1`isPlaying, avPlayer2`isPlaying
      modifies bpmManager.wc`outbox
      modifies if bpmManager.currentSession != null then {bpmManager.currentSession} else {}
      modifies if bpmManager.modelContext != null then {bpmManager.modelContext} else {}
      ensures Valid()
      ensures player1Stopped && player2Stopped ==>
        && timer == None
        && runLoop.live == old(runLoop.live) - (if old(timer).Some? then {old(timer).value} else {})
        && avPlayer1.onPlaybackComplete == None && avPlayer2.onPlaybackComplete == None
        && !avPlayer1.isPlaying && !avPlayer2.isPlaying
        && bpmManager.StoppedAt(now)
        && dismissals == old(dismissals) + 1
      ensures !(player1Stopped && player2Stopped) ==>
        && timer == old(timer) && dismissals == old(dismissals) && runLoop.live == old(runLoop.live)
        && avPlayer1.onPlaybackComplete == old(avPlayer1.onPlaybackComplete)
        && avPlayer2.onPlaybackComplete == old(avPlayer2.onPlaybackComplete)
        && avPlayer1.isPlaying == old(avPlayer1.isPlaying) && avPlayer2.isPlaying == old(avPlayer2.isPlaying)
        && bpmManager.wc.outbox == old(bpmManager.wc.outbox)
        && (bpmManager.currentSession != null ==> unchanged(bpmManager.currentSession))
        && (bpmManager.modelContext != null ==> unchanged(bpmManager.modelContext))
    {
      if player1Stopped && player2Stopped {
        StopAndDismiss(now);
      }
    }

    /** A player finishing playback: its installed completion handler, if any,
        runs (the main-queue hop happens at once). The gate follows `Completion`. */
    method PlaybackFinished(p: Player, now: Timestamp)
      requires Valid() && (p == avPlayer1 || p == avPlayer2)
      modifies this`player1Stopped, this`player2Stopped
      modifies this`timer, this`dismissals, runLoop`live
      modifies avPlayer1`onPlaybackComplete, avPlayer2`onPlaybackComplete, avPlayer1`isPlaying, avPlayer2`isPlaying
      modifies bpmManager.wc`outbox
      modifies if bpmManager.currentSession != null then {bpmManager.currentSession} else {}
      modifies if bpmManager.modelContext != null then {bpmManager.modelContext} else {}
      ensures Valid()
      ensures GateOf() == Completion(old(GateOf()), if p == avPlayer1 then First else Second)
      ensures dismissals == old(dismissals) + 1 ==>
        && timer == None && !avPlayer1.isPlaying && !avPlayer2.isPlaying
        && runLoop.live == old(runLoop.live) - (if old(timer).Some? then {old(timer).value} else {})
        && bpmManager.StoppedAt(now)
      ensures dismissals == old(dismissals) ==>
        && timer == old(timer) && runLoop.live == old(runLoop.live)
        && avPlayer1.isPlaying == old(avPlayer1.isPlaying) && avPlayer2.isPlaying == old(avPlayer2.isPlaying)
        && bpmManager.wc.outbox == old(bpmManager.wc.outbox)
        && (bpmManager.currentSession != null ==> unchanged(bpmManager.currentSession))
        && (bpmManager.modelContext != null ==> unchanged(bpmManager.modelContext))
    {
      match p.onPlaybackComplete {
        case None =>
        case Some(who) =>
          if who == First {
            player1Stopped := true;
          } else {
            player2Stopped := true;
          }
          CheckIfBothPlayersStopped(now);
      }
    }
  }
}
