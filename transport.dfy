/**
 * `WCSession.default`, the WatchConnectivity session both relays talk to,
 * reduced to the state they read and change: whether the platform supports it,
 * whether the peer is reachable, activation, the delegate and the messages
 * handed to `sendMessage` (delivery itself is the platform's business).
 */
module Transport {
  import opened Messages

  class WCSession {
    const isSupported: bool
    var isReachable: bool
    var isActivated: bool
    var activations: nat
    var delegate: object?
    var outbox: seq<Message>

    constructor (supported: bool, reachable: bool)
      ensures isSupported == supported && isReachable == reachable
      ensures !isActivated && activations == 0 && delegate == null && outbox == []
    {
      isSupported, isReachable := supported, reachable;
      isActivated, activations, delegate, outbox := false, 0, null, [];
    }

    /** `activate()`: safe to call any number of times. */
    method Activate()
      modifies this`isActivated, this`activations
      ensures isActivated && activations == old(activations) + 1
    {
      isActivated := true;
      activations := activations + 1;
    }

    /** `sendMessage(_:replyHandler:)` with no reply handler: fire and forget. */
    method SendMessage(m: Message)
      modifies this`outbox
      ensures outbox == old(outbox) + [m]
    {
      outbox := outbox + [m];
    }

    /** The platform tearing the session down on its own. */
    method Deactivate()
      modifies this`isActivated
      ensures !isActivated
    {
      isActivated := false;
    }

    /** The peer coming into or going out of range. */
    method SetReachable(reachable: bool)
      modifies this`isReachable
      ensures isReachable == reachable
    {
      isReachable := reachable;
    }
  }
}
