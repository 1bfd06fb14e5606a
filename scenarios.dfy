/**
 * Client runs of a CamMan, mirroring the library's own tests and the
 * start, draw, snapshot, stop lifecycle. Each is proved from the class's
 * contracts alone. The browser's answers are calls made in the order a
 * browser makes them.
 */
module Scenarios {
  import opened Values
  import opened Events
  import opened Options
  import opened Surfaces
  import opened CamMan

  const TestOptions: OptionMap := map["container" := Str("camera-test"), "audio" := Bool(false), "useCanvas" := Bool(false)]
  const UpdatedOptions: OptionMap := TestOptions["audio" := Bool(true)]

  const OnStart := Handler(1)
  const OnError := Handler(2)
  const OnSnapshot := Handler(3)
  const OnStop := Handler(4)
  const OnFrame := Handler(5)

  /** Every key of `expected` reads back from `actual` with its value. */
  predicate Agrees(actual: OptionMap, expected: OptionMap)
  {
    forall k :: k in expected ==> k in actual && actual[k] == expected[k]
  }

  /** Construction and `setOptions` both leave the caller's options readable as given. */
  method OptionsAreSetCorrectly() returns (constructed: OptionMap, updated: OptionMap)
    ensures Agrees(constructed, TestOptions)
    ensures Agrees(updated, UpdatedOptions)
    ensures constructed.Keys == updated.Keys == TestOptions.Keys
  {
    var cam := new CamMan(TestOptions);
    constructed := cam.options;
    cam.SetOptions(UpdatedOptions);
    updated := cam.options;
  }

  /**
   * Start with access granted: video without audio is requested, and
   * `'start'` is published once even though `canplay` fires twice.
   */
  method StartWhenPermitted() returns (log: seq<Effect>, r: JsReturn)
    ensures r == JsUndefined
    ensures log == [RequestMedia(true, Bool(false)), Invoke(OnStart, NoData)]
  {
    var cam := new CamMan(map["container" := Str("camera-test")]);
    cam.On("start", OnStart);
    PublishedSingle(cam.events, "start", OnStart, NoData);
    r := cam.Start(true);
    cam.Granted(Stream(7));
    cam.MediaLoaded(640, 480);
    cam.CanPlay();
    assert cam.effects == [RequestMedia(true, Bool(false)), Invoke(OnStart, NoData)];
    cam.CanPlay();
    log := cam.effects;
  }

  /** Start without `getUserMedia`: `false`, one `'error'` with the fixed message, no stream. */
  method ErrorWhenNotSupported() returns (log: seq<Effect>, r: JsReturn, stream: Option<Stream>)
    ensures r == JsFalse
    ensures log == [Invoke(OnError, Text("Browser not supported"))]
    ensures stream == None
  {
    var cam := new CamMan(map["container" := Str("camera-test")]);
    cam.On("error", OnError);
    PublishedSingle(cam.events, "error", OnError, Text(NotSupported));
    r := cam.Start(false);
    log := cam.effects;
    stream := cam.stream;
  }

  /** Start with access denied: the platform's error reaches `'error'` as it was given. */
  method ErrorWhenDenied(err: PlatformError) returns (log: seq<Effect>)
    ensures log == [RequestMedia(true, Bool(true)), Invoke(OnError, Failure(err))]
  {
    var cam := new CamMan(map["audio" := Bool(true)]);
    cam.On("error", OnError);
    PublishedSingle(cam.events, "error", OnError, Failure(err));
    var _ := cam.Start(true);
    cam.Denied(err);
    log := cam.effects;
  }

  /**
   * Two snapshots once the stream is granted and the video has its size:
   * the first takes the video's size, the second the size asked for where
   * it is truthy; each is drawn, returned, published and kept in order.
   */
  method SnapshotsAfterStart() returns (first: Canvas, second: Canvas, history: seq<Canvas>, log: seq<Effect>)
    ensures first.width == 640 && first.height == 480
    ensures second.width == 640 && second.height == 100
    ensures first != second
    ensures history == [first, second]
    ensures log == [Draw(first), Invoke(OnSnapshot, CanvasData(first)), Draw(second), Invoke(OnSnapshot, CanvasData(second))]
  {
    var cam := new CamMan(map[]);
    cam.On("snapshot", OnSnapshot);
    cam.Granted(Stream(7));
    cam.MediaLoaded(640, 480);
    first := cam.Snapshot(None, None);
    PublishedSingle(cam.events, "snapshot", OnSnapshot, CanvasData(first));
    ghost var afterFirst := cam.effects;
    assert afterFirst == [Draw(first), Invoke(OnSnapshot, CanvasData(first))];
    second := cam.Snapshot(Some(0), Some(100));
    PublishedSingle(cam.events, "snapshot", OnSnapshot, CanvasData(second));
    history := cam.snapshots;
    log := cam.effects;
  }

  /**
   * No canvas before the video has a size; afterwards two canvases of the
   * video's size, repainted in registration order on a tick, the first
   * followed by its frame callback.
   */
  method CanvasesRepaintedInOrder() returns (early: Option<Canvas>, a: Canvas, b: Canvas, tick: seq<Effect>)
    ensures early == None
    ensures a.width == 640 && a.height == 480 && b == Canvas(a.id + 1, 640, 480)
    ensures tick == [Draw(a), Invoke(OnFrame, CanvasData(a)), Draw(b)]
  {
    var cam := new CamMan(map[]);
    cam.Granted(Stream(7));
    early := cam.CreateCanvas(None);
    cam.MediaLoaded(640, 480);
    var ca := cam.CreateCanvas(Some(OnFrame));
    var cb := cam.CreateCanvas(None);
    a, b := ca.value, cb.value;
    assert cam.canvasStorage == [CanvasEntry(a, Some(OnFrame))] + [CanvasEntry(b, None)];
    var before := cam.effects;
    cam.UpdateCanvas();
    tick := cam.effects[|before|..];
    TickEffectsAppend([CanvasEntry(a, Some(OnFrame))], [CanvasEntry(b, None)]);
  }

  /**
   * `stop` empties the canvas registry but keeps the snapshots and
   * publishes `'stop'`; a canvas made afterwards starts a second redraw
   * loop beside the first, which was never cancelled.
   */
  method StopThenNewCanvas() returns (stopped: JsReturn, afterStop: seq<CanvasEntry>, shots: nat, loops: nat)
    ensures stopped == JsUndefined && afterStop == [] && shots == 1
    ensures loops == 2
  {
    var cam := new CamMan(map[]);
    cam.On("stop", OnStop);
    assert "stop" in cam.events;
    cam.Granted(Stream(7));
    cam.MediaLoaded(640, 480);
    var _ := cam.CreateCanvas(None);
    var _ := cam.Snapshot(None, None);
    stopped := cam.Stop();
    afterStop := cam.canvasStorage;
    shots := |cam.snapshots|;
    var _ := cam.CreateCanvas(None);
    loops := cam.loopsStarted;
  }

  /**
   * The start handshake: `start` with the capability, the platform grants
   * stream `s`, and the new video reports `canplay`.
   */
  method StartStreaming(cam: CamMan, s: Stream)
    requires cam.Valid()
    modifies cam
    ensures cam.Valid()
    ensures cam.events == old(cam.events) && cam.options == old(cam.options)
    ensures cam.stream == Some(s) && cam.video.Some? && cam.video.value.streaming
    ensures cam.effects == old(cam.effects) + [RequestMedia(true, Property(cam.options, "audio"))]
                           + Published(cam.events, "start", NoData)
  {
    var _ := cam.Start(true);
    cam.Granted(s);
    cam.CanPlay();
  }

  /**
   * Start, stop, start again: `stop` reaches the registered `'stop'`
   * handler, and the second start is as good as the first, with a new
   * stream and a new video that publishes `'start'` afresh.
   */
  method RestartAfterStop() returns (log: seq<Effect>, stream: Option<Stream>)
    ensures log == [RequestMedia(true, Bool(false)), Invoke(OnStart, NoData), StopStream(Stream(7)), Invoke(OnStop, NoData),
                    RequestMedia(true, Bool(false)), Invoke(OnStart, NoData)]
    ensures stream == Some(Stream(8))
  {
    var cam := new CamMan(map[]);
    cam.On("stop", OnStop);
    cam.On("start", OnStart);
    PublishedSingle(cam.events, "start", OnStart, NoData);
    PublishedSingle(cam.events, "stop", OnStop, NoData);
    StartStreaming(cam, Stream(7));
    var _ := cam.Stop();
    ghost var afterStop := cam.effects;
    assert afterStop == [RequestMedia(true, Bool(false)), Invoke(OnStart, NoData), StopStream(Stream(7)), Invoke(OnStop, NoData)];
    StartStreaming(cam, Stream(8));
    log := cam.effects;
    stream := cam.stream;
  }

  /**
   * `off` as written: removing the `'start'` handler also loses the
   * `'error'` handler, so an unsupported browser goes unreported.
   */
  method OffSilencesOtherEvents() returns (log: seq<Effect>, r: JsReturn)
    ensures r == JsFalse
    ensures log == []
  {
    var cam := new CamMan(map[]);
    cam.On("start", OnStart);
    cam.On("error", OnError);
    cam.Off("start", OnStart);
    r := cam.Start(false);
    log := cam.effects;
  }
}
