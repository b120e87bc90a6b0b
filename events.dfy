/**
 * What the client emits to the embedding application, the closed table that
 * routes server push notifications (`handleUpdate`), and the close-code table
 * (`disconnectReasons`).
 */
module Events {

  import opened Wrappers
  import opened Json

  /** An argument passed to `emit`. */
  datatype Arg =
    | Val(v: Value)                    // a decoded JSON value
    | Undefined                        // JavaScript `undefined`
    | ParseError                       // the exception `JSON.parse` throws
    | ErrorObject(message: string)     // `new Error(message)`
    | SocketErrorEvent(detail: string) // the browser's socket error event

  /** One `this.emit(name, ...args)` call. */
  datatype Event = Event(name: string, args: seq<Arg>)

  /** The argument an `undefined`-or-value read becomes. */
  function ArgOf(v: Option<Value>): (a: Arg)
    ensures v.None? <==> a == Undefined
    ensures v.Some? ==> a == Val(v.value)
  {
    match v
    case None => Undefined
    case Some(x) => Val(x)
  }

  /** The `update-type` tags the client knows, each mapped to the event it emits. */
  const UpdateTable: map<string, string> := map[
    "StreamStatus" := "stream.status",
    "StreamStarting" := "stream.start",
    "StreamStopping" := "stream.stop",
    "SwitchScenes" := "scenes.switch",
    "ScenesChanged" := "scenes.change",
    "SourceOrderChanged" := "sources.order",
    "SourceChanged" := "source.change",
    "RepopulateSources" := "source.repopulate",
    "VolumeChanged" := "volume.change"
  ]

  /**
   * The `switch (type)` of `handleUpdate`: the event to emit for an update tag,
   * compared with `===`, so only strings can match; anything else emits nothing.
   */
  function UpdateEventName(tag: Value): (r: Option<string>)
    ensures r.Some? <==> tag.JStr? && tag.s in UpdateTable
    ensures r.Some? ==> r.value == UpdateTable[tag.s]
  {
    if tag == JStr("StreamStatus") then Some("stream.status")
    else if tag == JStr("StreamStarting") then Some("stream.start")
    else if tag == JStr("StreamStopping") then Some("stream.stop")
    else if tag == JStr("SwitchScenes") then Some("scenes.switch")
    else if tag == JStr("ScenesChanged") then Some("scenes.change")
    else if tag == JStr("SourceOrderChanged") then Some("sources.order")
    else if tag == JStr("SourceChanged") then Some("source.change")
    else if tag == JStr("RepopulateSources") then Some("source.repopulate")
    else if tag == JStr("VolumeChanged") then Some("volume.change")
    else None
  }

  /** The events the client emits for its own life cycle and for protocol errors. */
  const LifecycleEvents: set<string> := {"ready", "error", "socket.open", "socket.error", "socket.close"}

  /** The routing read backwards: from an emitted event name to the tag that causes it. */
  const TagOfEvent: map<string, string> := map[
    "stream.status" := "StreamStatus",
    "stream.start" := "StreamStarting",
    "stream.stop" := "StreamStopping",
    "scenes.switch" := "SwitchScenes",
    "scenes.change" := "ScenesChanged",
    "sources.order" := "SourceOrderChanged",
    "source.change" := "SourceChanged",
    "source.repopulate" := "RepopulateSources",
    "volume.change" := "VolumeChanged"
  ]

  /** Every routed event leads back to the tag that caused it. */
  lemma UpdateRoutingInvertible(tag: Value)
    requires UpdateEventName(tag).Some?
    ensures UpdateEventName(tag).value in TagOfEvent
    ensures tag == JStr(TagOfEvent[UpdateEventName(tag).value])
  {
  }

  /** A server push never surfaces as a life-cycle or `error` event. */
  lemma RoutedEventsAreNotLifecycle(tag: Value)
    requires UpdateEventName(tag).Some?
    ensures UpdateEventName(tag).value !in LifecycleEvents
  {
  }

  /** Different tags are routed to different events. */
  lemma UpdateRoutingInjective(a: Value, b: Value)
    requires UpdateEventName(a).Some? && UpdateEventName(a) == UpdateEventName(b)
    ensures a == b
  {
    UpdateRoutingInvertible(a);
    UpdateRoutingInvertible(b);
  }

  /** The message `socketOnClose` rejects a pending connect with, by close code. */
  function DisconnectReason(code: int): (r: string)
    ensures r == "Server not reachable" <==> code == 1006
    ensures r == "Unknown Error" <==> code != 1006
  {
    if code == 1006 then "Server not reachable" else "Unknown Error"
  }
}
