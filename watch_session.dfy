/**
 * The simpler relay, the second `HeartRateController` of the phone target: it
 * only forwards start and stop commands to the watch and mirrors the latest
 * sample in `bpm`. It keeps no sessions. The main-queue hop of the receive
 * handler happens at once here; a `"status"` entry is only logged, and logging
 * is not modelled.
 */
module WatchSession {
  import opened Messages
  import Transport

  class HeartRateController {
    var bpm: real
    const wc: Transport.WCSession

    /** `init()`: become the delegate and activate, when the platform supports it. */
    constructor (wc: Transport.WCSession)
      modifies wc`delegate, wc`isActivated, wc`activations
      ensures this.wc == wc && bpm == 0.0
      ensures wc.isSupported ==> wc.delegate == this && wc.isActivated && wc.activations == old(wc.activations) + 1
      ensures !wc.isSupported ==> wc.delegate == old(wc.delegate) && wc.isActivated == old(wc.isActivated) && wc.activations == old(wc.activations)
    {
      bpm := 0.0;
      this.wc := wc;
      new;
      if wc.isSupported {
        wc.delegate := this;
        wc.Activate();
      }
    }

    /** `startHeartRate()`: one start command when the watch is reachable, nothing otherwise. */
    method StartHeartRate()
      modifies wc`outbox
      ensures wc.outbox == old(wc.outbox) + (if wc.isReachable then [StartCommand] else [])
    {
      if wc.isReachable {
        wc.SendMessage(StartCommand);
      }
    }

    /** `stopHeartRate()`: one stop command when the watch is reachable, nothing otherwise. */
    method StopHeartRate()
      modifies wc`outbox
      ensures wc.outbox == old(wc.outbox) + (if wc.isReachable then [StopCommand] else [])
    {
      if wc.isReachable {
        wc.SendMessage(StopCommand);
      }
    }

    /**
     * `session(_:didReceiveMessage:)`: a Double `"bpm"` entry becomes the
     * latest value; a `"status"` string, or any other content, leaves it.
     */
    method DidReceiveMessage(message: Message)
      modifies this`bpm
      ensures bpm == BpmAfter(old(bpm), message)
    {
      var sample := BpmOf(message);
      if sample.Some? {
        bpm := sample.value;
      }
    }

    /** `sessionDidBecomeInactive(_:)`: activate again. */
    method SessionDidBecomeInactive()
      modifies wc`isActivated, wc`activations
      ensures wc.isActivated && wc.activations == old(wc.activations) + 1
    {
      wc.Activate();
    }

    /** `sessionDidDeactivate(_:)`: activate again. */
    method SessionDidDeactivate()
      modifies wc`isActivated, wc`activations
      ensures wc.isActivated && wc.activations == old(wc.activations) + 1
    {
      wc.Activate();
    }
  }

  /** A deactivation by the platform followed by the delegate's callback leaves
      the session active. */
  method DeactivationRecovers(relay: HeartRateController)
    modifies relay.wc
    ensures relay.wc.isActivated
  {
    relay.wc.Deactivate();
    relay.SessionDidDeactivate();
  }
}
