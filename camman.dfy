/**
 * The `CamMan` webcam client: an event table, options, the registry of
 * output canvases, the snapshot history, and the current stream and video.
 *
 * What CamMan does to the outside world (calling handlers, drawing frames,
 * asking for and stopping media) is recorded, in order, in `effects`.
 * The browser's asynchronous answers (media granted or denied, the video's
 * size becoming known, `canplay`) are methods the environment calls.
 */
module CamMan {
  import opened Values
  import opened Events
  import opened Options
  import opened Surfaces

  const NotSupported: string := "Browser not supported"

  class CamMan {
    var events: Table
    var options: OptionMap
    var snapshots: seq<Canvas>
    var canvasStorage: seq<CanvasEntry>
    var video: Option<Video>
    var stream: Option<Stream>

    /** Everything CamMan has done to the outside world, oldest first. */
    var effects: seq<Effect>
    /** How many redraw loops have been started; none is ever cancelled. */
    var loopsStarted: nat
    /** The identity the next DOM element CamMan creates will get. */
    var nextId: nat

    /**
     * The object invariant: a registered canvas means a video to draw from
     * and a running redraw loop; a stream always has its video; every
     * element CamMan created is older than `nextId`.
     */
    ghost predicate Valid()
      reads this
    {
      && (canvasStorage != [] ==> video.Some? && loopsStarted > 0)
      && (stream.Some? ==> video.Some?)
      && (video.Some? ==> video.value.id < nextId)
      && (forall entry :: entry in canvasStorage ==> entry.canvas.id < nextId)
      && (forall shot :: shot in snapshots ==> shot.id < nextId)
    }

    /** `new CamMan(given)`: empty state, the defaults, then the caller's options merged in. */
    constructor (given: OptionMap)
      ensures Valid()
      ensures options == Merge(Defaults, given)
      ensures events == map[] && snapshots == [] && canvasStorage == []
      ensures video == None && stream == None
      ensures effects == [] && loopsStarted == 0
    {
      events := map[];
      snapshots := [];
      canvasStorage := [];
      video := None;
      stream := None;
      options := Defaults;
      effects := [];
      loopsStarted := 0;
      nextId := 0;
      new;
      SetOptions(given);
    }

    /** `setOptions(given)`: copies every given key over the current options. */
    method SetOptions(given: OptionMap)
      requires Valid()
      modifies this`options
      ensures Valid()
      ensures options == Merge(old(options), given)
    {
      var pending := given.Keys;
      while pending != {}
        invariant pending <= given.Keys
        invariant options == Merge(old(options), given - pending)
        decreases pending
      {
        var key :| key in pending;
        options := options[key := given[key]];
        pending := pending - {key};
        assert given - pending == (given - (pending + {key}))[key := given[key]];
      }
      assert given - pending == given;
    }

    /** `on(e, h)`. */
    method On(e: string, h: Handler)
      requires Valid()
      modifies this`events
      ensures Valid()
      ensures events == Subscribe(old(events), e, h)
    {
      if e !in events {
        events := events[e := []];
      }
      events := events[e := events[e] + [h]];
    }

    /**
     * `off(e, h)` as written: `events[e]` must exist, its filtered list
     * then takes the place of the whole table.
     */
    method Off(e: string, h: Handler)
      requires Valid()
      requires e in events
      modifies this`events
      ensures Valid()
      ensures events == OffAsWritten(old(events), e, h)
    {
      // The filtered list is computed as the code does; it is what the code
      // stores as `this.events`, and as an array it has no entry for any event
      // name, so the table the model keeps is empty.
      var survivors := Without(events[e], h);
      events := map[];
    }

    /**
     * `trigger(e, d)`: `false` without calling anything when `e` has no
     * entry; otherwise every registered handler is called with `d`, in
     * registration order, and the result is `undefined`.
     */
    method Trigger(e: string, d: Payload) returns (r: JsReturn)
      requires Valid()
      modifies this`effects
      ensures Valid()
      ensures r == if e in events then JsUndefined else JsFalse
      ensures effects == old(effects) + Published(events, e, d)
    {
      if e !in events {
        return JsFalse;
      }
      var handlers := events[e];
      var i := 0;
      while i < |handlers|
        invariant 0 <= i <= |handlers|
        invariant effects == old(effects) + Invocations(handlers[..i], d)
      {
        effects := effects + [Invoke(handlers[i], d)];
        InvocationsAppend(handlers[..i], [handlers[i]], d);
        assert handlers[..i + 1] == handlers[..i] + [handlers[i]];
        i := i + 1;
      }
      assert handlers[..i] == handlers;
      r := JsUndefined;
    }

    /**
     * `createCanvas(callback)`: nothing while the video's size is unknown;
     * otherwise a new canvas of the video's size is registered, and a redraw
     * loop is started if the registry was empty.
     */
    method CreateCanvas(callback: Option<Handler>) returns (c: Option<Canvas>)
      requires Valid()
      requires video.Some?
      modifies this`canvasStorage, this`loopsStarted, this`nextId, this`effects
      ensures Valid()
      ensures effects == old(effects)
      ensures video.value.width == 0 || video.value.height == 0 ==>
        c == None && canvasStorage == old(canvasStorage) && loopsStarted == old(loopsStarted) && nextId == old(nextId)
      ensures video.value.width != 0 && video.value.height != 0 ==>
        && c == Some(Canvas(old(nextId), video.value.width, video.value.height))
        && canvasStorage == old(canvasStorage) + [CanvasEntry(c.value, callback)]
        && loopsStarted == old(loopsStarted) + (if old(canvasStorage) == [] then 1 else 0)
        && nextId == old(nextId) + 1
      ensures c.Some? ==> forall entry :: entry in old(canvasStorage) ==> entry.canvas.id != c.value.id
    {
      var width, height := video.value.width, video.value.height;
      if width != 0 && height != 0 {
        var canvas := Canvas(nextId, width, height);
        nextId := nextId + 1;
        if |canvasStorage| == 0 {
          UpdateCanvas();
          loopsStarted := loopsStarted + 1;
        }
        canvasStorage := canvasStorage + [CanvasEntry(canvas, callback)];
        c := Some(canvas);
      } else {
        c := None;
      }
    }

    /**
     * One tick of `updateCanvas`: each registered canvas, in order, gets the
     * current frame and then its callback is called with it. (The tick's
     * rescheduling of itself is the running loop counted in `loopsStarted`.)
     */
    method UpdateCanvas()
      requires Valid()
      modifies this`effects
      ensures Valid()
      ensures effects == old(effects) + TickEffects(canvasStorage)
    {
      var i := 0;
      while i < |canvasStorage|
        invariant 0 <= i <= |canvasStorage|
        invariant effects == old(effects) + TickEffects(canvasStorage[..i])
      {
        var entry := canvasStorage[i];
        effects := effects + [Draw(entry.canvas)];
        if entry.onFrame.Some? {
          effects := effects + [Invoke(entry.onFrame.value, CanvasData(entry.canvas))];
        }
        TickEffectsSnoc(canvasStorage[..i], entry);
        assert canvasStorage[..i + 1] == canvasStorage[..i] + [entry];
        i := i + 1;
      }
      assert canvasStorage[..i] == canvasStorage;
    }

    /**
     * `snapshot(width, height)`: a new canvas, sized by the arguments or, for
     * a falsy one, by the video, gets the current frame, joins the history,
     * is published as `'snapshot'` and returned.
     */
    method Snapshot(width: Option<nat>, height: Option<nat>) returns (c: Canvas)
      requires Valid()
      requires video.Some?
      modifies this`snapshots, this`nextId, this`effects
      ensures Valid()
      ensures c == Canvas(old(nextId), OrDefault(width, video.value.width), OrDefault(height, video.value.height))
      ensures forall shot :: shot in old(snapshots) ==> shot.id != c.id
      ensures snapshots == old(snapshots) + [c]
      ensures nextId == old(nextId) + 1
      ensures effects == old(effects) + [Draw(c)] + Published(events, "snapshot", CanvasData(c))
    {
      c := Canvas(nextId, OrDefault(width, video.value.width), OrDefault(height, video.value.height));
      nextId := nextId + 1;
      effects := effects + [Draw(c)];
      snapshots := snapshots + [c];
      var _ := Trigger("snapshot", CanvasData(c));
    }

    /**
     * `start()`: without `getUserMedia` on the platform, `'error'` is
     * published with `'Browser not supported'` and the result is `false`;
     * otherwise video, and audio as the options say, are requested.
     */
    method Start(capable: bool) returns (r: JsReturn)
      requires Valid()
      modifies this`effects
      ensures Valid()
      ensures !capable ==> r == JsFalse && effects == old(effects) + Published(events, "error", Text(NotSupported))
      ensures capable ==> r == JsUndefined && effects == old(effects) + [RequestMedia(true, Property(options, "audio"))]
    {
      if !capable {
        var _ := Trigger("error", Text(NotSupported));
        return JsFalse;
      }
      effects := effects + [RequestMedia(true, Property(options, "audio"))];
      r := JsUndefined;
    }

    /**
     * The success callback of `start`: the stream is kept and a new video
     * element (`createVideo`) plays it; its size is unknown and it is not
     * streaming yet.
     */
    method Granted(s: Stream)
      requires Valid()
      modifies this`stream, this`video, this`nextId
      ensures Valid()
      ensures stream == Some(s)
      ensures video == Some(Video(old(nextId), s, 0, 0, false))
      ensures nextId == old(nextId) + 1
    {
      stream := Some(s);
      video := Some(Video(nextId, s, 0, 0, false));
      nextId := nextId + 1;
    }

    /** The failure callback of `start`: the platform's error is published verbatim as `'error'`. */
    method Denied(err: PlatformError)
      requires Valid()
      modifies this`effects
      ensures Valid()
      ensures effects == old(effects) + Published(events, "error", Failure(err))
    {
      var _ := Trigger("error", Failure(err));
    }

    /** The browser has decoded the video and reports its natural size. */
    method MediaLoaded(width: nat, height: nat)
      requires Valid()
      requires video.Some?
      modifies this`video
      ensures Valid()
      ensures video == Some(old(video.value).(width := width, height := height))
    {
      video := Some(video.value.(width := width, height := height));
    }

    /** The video's `canplay` listener: publishes `'start'` the first time only. */
    method CanPlay()
      requires Valid()
      requires video.Some?
      modifies this`video, this`effects
      ensures Valid()
      ensures old(video.value.streaming) ==> video == old(video) && effects == old(effects)
      ensures !old(video.value.streaming) ==>
        video == Some(old(video.value).(streaming := true)) &&
        effects == old(effects) + Published(events, "start", NoData)
    {
      if !video.value.streaming {
        video := Some(video.value.(streaming := true));
        var _ := Trigger("start", NoData);
      }
    }

    /**
     * `stop()`: the stream must exist; it is stopped, the canvas registry is
     * emptied, `'stop'` is published and `trigger`'s result returned.
     * Stream, video, snapshots and the event table stay as they are.
     */
    method Stop() returns (r: JsReturn)
      requires Valid()
      requires stream.Some?
      modifies this`canvasStorage, this`effects
      ensures Valid()
      ensures canvasStorage == []
      ensures r == if "stop" in events then JsUndefined else JsFalse
      ensures effects == old(effects) + [StopStream(stream.value)] + Published(events, "stop", NoData)
    {
      effects := effects + [StopStream(stream.value)];
      canvasStorage := [];
      r := Trigger("stop", NoData);
    }
  }
}
