/**
 * The values CamMan handles. Browser objects (handler functions, canvas and
 * video elements, media streams, platform errors) are opaque identifiers;
 * only the attributes CamMan reads or writes are kept.
 */
module Values {

  datatype Option<T> = None | Some(value: T)

  /** A JavaScript function registered as an event handler or frame callback. */
  datatype Handler = Handler(id: nat)

  /** A `<canvas>` element: its identity and the size CamMan gave it. */
  datatype Canvas = Canvas(id: nat, width: nat, height: nat)

  /** A media stream granted by the platform. */
  datatype Stream = Stream(id: nat)

  /** The value the platform hands to the failure callback of a media request. */
  datatype PlatformError = PlatformError(id: nat)

  /**
   * The `<video>` element CamMan creates for a stream: the stream it plays,
   * the natural size the browser reports once frames are decoded (0 before),
   * and the `streaming` flag held by its `canplay` listener.
   */
  datatype Video = Video(id: nat, source: Stream, width: nat, height: nat, streaming: bool)

  /** An option value, as far as CamMan distinguishes them. */
  datatype Value = Undefined | Null | Bool(b: bool) | Num(n: int) | Str(s: string) | Ref(id: nat)

  /** What a handler is called with. */
  datatype Payload =
    | NoData                          // `trigger('start')`, `trigger('stop')`
    | Text(text: string)              // `'Browser not supported'`
    | CanvasData(canvas: Canvas)      // a snapshot, or a frame callback's canvas
    | Failure(error: PlatformError)   // the platform's error, passed on verbatim

  /** An outside effect of CamMan, in the order it happens. */
  datatype Effect =
    | Invoke(handler: Handler, data: Payload)   // a handler or callback is called
    | Draw(canvas: Canvas)                      // `drawImage` of the current video frame
    | RequestMedia(video: bool, audio: Value)   // `getUserMedia` with these constraints
    | StopStream(stream: Stream)                // `stream.stop()`

  /** The two results a CamMan method hands back: `false`, or `undefined`. */
  datatype JsReturn = JsFalse | JsUndefined

  /** JavaScript's `arg || fallback` for an optional size argument: 0 and a missing argument are falsy. */
  function OrDefault(arg: Option<nat>, fallback: nat): (r: nat)
    ensures (arg == None || arg == Some(0)) ==> r == fallback
    ensures arg.Some? && arg.value != 0 ==> r == arg.value
    ensures r == 0 ==> fallback == 0
  {
    match arg
    case Some(n) => if n != 0 then n else fallback
    case None => fallback
  }
}
