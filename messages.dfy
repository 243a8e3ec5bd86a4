/**
 * The transport's message payloads. WatchConnectivity carries string-keyed
 * dictionaries (`[String: Any]`); the relay puts Doubles and Strings in them.
 */
module Messages {
  import opened Wrappers

  /** One entry of a `[String: Any]` payload. */
  datatype Value = DoubleValue(d: real) | StringValue(s: string) | OtherValue

  type Message = map<string, Value>

  /** `["command": name]`, the control messages the phone sends. */
  function Command(name: string): Message {
    map["command" := StringValue(name)]
  }

  const StartCommand: Message := Command("start")
  const StopCommand: Message := Command("stop")

  /** `["bpm": v]`, the sample message of the wire format. */
  function SampleMessage(v: real): Message {
    map["bpm" := DoubleValue(v)]
  }

  /** `message["bpm"] as? Double`: present only when the key holds a Double. */
  function BpmOf(m: Message): Option<real> {
    if "bpm" in m && m["bpm"].DoubleValue? then Some(m["bpm"].d) else None
  }

  /** `message["status"] as? String` */
  function StatusOf(m: Message): Option<string> {
    if "status" in m && m["status"].StringValue? then Some(m["status"].s) else None
  }

  /** The latest-value projection both relays keep: a Double `"bpm"` entry
      replaces the value, any other message leaves it. */
  function BpmAfter(bpm: real, m: Message): real {
    BpmOf(m).GetOr(bpm)
  }

  /** The projection after a whole stream of messages. */
  function BpmAfterAll(bpm: real, ms: seq<Message>): real
    decreases |ms|
  {
    if ms == [] then bpm else BpmAfter(BpmAfterAll(bpm, ms[..|ms| - 1]), ms[|ms| - 1])
  }

  /** A sample decodes to its value; control messages carry no sample. */
  lemma SampleRoundTrip(v: real)
    ensures BpmOf(SampleMessage(v)) == Some(v)
    ensures BpmOf(StartCommand) == None && BpmOf(StopCommand) == None
    ensures StatusOf(SampleMessage(v)) == None
  {
  }

  /**
   * Each lookup sees its own key only: writing any other entry leaves it
   * alone, and writing its key decides it — a Double (a String) is read back,
   * a value of another type reads as absent.
   */
  lemma PayloadKeys(m: Message, k: string, x: Value)
    ensures k != "bpm" ==> BpmOf(m[k := x]) == BpmOf(m)
    ensures k != "status" ==> StatusOf(m[k := x]) == StatusOf(m)
    ensures BpmOf(m["bpm" := x]) == if x.DoubleValue? then Some(x.d) else None
    ensures StatusOf(m["status" := x]) == if x.StringValue? then Some(x.s) else None
    ensures BpmOf(map[]) == None && StatusOf(map[]) == None
  {
  }

  /** After a stream, the projection is the value of the LAST sample in it,
      or the initial value when the stream holds no sample. */
  lemma {:induction false} BpmAfterAllIsLastSample(bpm: real, ms: seq<Message>)
    ensures (forall i :: 0 <= i < |ms| ==> BpmOf(ms[i]).None?) ==> BpmAfterAll(bpm, ms) == bpm
    ensures forall i :: 0 <= i < |ms| && BpmOf(ms[i]).Some? &&
                        (forall j :: i < j < |ms| ==> BpmOf(ms[j]).None?) ==>
              BpmAfterAll(bpm, ms) == BpmOf(ms[i]).value
    decreases |ms|
  {
    if ms != [] {
      var init := ms[..|ms| - 1];
      BpmAfterAllIsLastSample(bpm, init);
      assert forall i :: 0 <= i < |init| ==> init[i] == ms[i];
    }
  }
}
