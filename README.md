# CamMan, modelled in Dafny

CamMan is a browser webcam client. It asks the platform for a camera stream (`getUserMedia`), plays it in a `<video>` element, and repaints any number of output canvases from it in a redraw loop driven by `requestAnimationFrame`. It also takes still snapshots and reports `start`, `stop`, `snapshot` and `error` to handlers registered with `on`/`off`.

This project models the `CamMan` object of `CamMan.js` as the Dafny class `CamMan.CamMan`. Its fields are the ones the object updates in place:

- `events`: event name to handler list.
- `options`: a dictionary.
- `canvasStorage`: the canvas registry.
- `snapshots`: the snapshot history.
- `stream` and `video`.

Three more fields stand in for the browser:

- `effects` records in order what CamMan does outside itself: calling a handler or frame callback (`Invoke`), drawing the current frame into a canvas (`Draw`), requesting media with given constraints (`RequestMedia`), and stopping a stream (`StopStream`).
- `loopsStarted` counts redraw loops started. Loops are never cancelled.
- `nextId` gives each created DOM element (canvas or video) a fresh identity.

The browser's asynchronous answers are methods that the environment calls:

- `Granted`: the success callback of `start`, which also creates the video (`createVideo`).
- `Denied`: the error callback of `start`.
- `MediaLoaded`: the browser learns the video's natural size.
- `CanPlay`: the video's `canplay` listener.

Whether the platform has `getUserMedia` at all is the boolean argument of `Start`.

Modules:

- `Values`: handlers, canvases, streams, videos, option values, payloads and effects, all as values. JavaScript's `||` default for size arguments is `OrDefault`.
- `Events`: the event table as a map. It defines subscription (`Subscribe`), the filter in `off` (`Without`), what `trigger` calls (`Invocations`, `Published`), `off` as written (`OffAsWritten`) and as intended (`Unsubscribe`).
- `Options`: defaults and the shallow merge of `setOptions`.
- `Surfaces`: canvas registry entries and one redraw tick (`TickEffects`).
- `CamMan`: the class. Its methods are proved against the functions above.
- `Scenarios`: client runs that mirror `test/tests.js` and the start, draw, snapshot, stop lifecycle. They are proved from the class contracts alone.

What the code does, and the model with it:

- `updateCanvas` calls each canvas's frame callback directly with that canvas. It publishes no event for it, and every canvas takes the video's own size.
- `createCanvas`, `snapshot` and `stop` read `video` or `stream` without a guard, so the model's methods require them to be present. Called before a stream was granted, the code throws.
- `stop` does not clear `stream` or `video`.
- The corrected `off` (`Events.Unsubscribe`) leaves an empty list under the event when its last handler goes; the key stays.

## Model

| member | source | states |
|---|---|---|
| Values.OrDefault | CamMan.js:151-152 | a missing or 0 size argument falls back to the video's size; any other argument is used as given; the result is 0 only if the fallback is |
| Options.Merge | CamMan.js:108-111 | after `setOptions`, the keys are the old keys plus the given ones; every given key holds the given value; every other old key keeps its value |
| Options.MergeIdempotent | CamMan.js:108-111 | setting the same options a second time changes nothing |
| Options.ConstructedOptions | CamMan.js:33-37 | a new CamMan has `audio` false and `container` null unless the caller gives them; every key the caller gives reads back as given |
| Events.Invocations | CamMan.js:102-104 | `trigger` makes exactly one call per registration |
| Events.InvocationsAt | CamMan.js:102-104 | the i-th call goes to the i-th registered handler, with the payload: calls follow registration order |
| Events.InvokedIffRegistered | CamMan.js:100-104 | a handler is called by `trigger` if and only if it is registered for the event |
| Events.InvocationsAppend | CamMan.js:102-104 | the calls for a concatenation of handler lists are the calls for the first list, then for the second |
| Events.SubscribeThenPublish | CamMan.js:85-89 | after `on(e, h)`, triggering `e` makes the same calls as before plus one to `h`, last; other events make exactly the calls they made before |
| Events.Without | CamMan.js:93-95 | the filter in `off` leaves no occurrence of `h`; every other handler keeps its number of registrations |
| Events.WithoutAppend | CamMan.js:93-95 | the filter distributes over concatenation, so survivors keep their relative order |
| Events.WithoutAbsent | CamMan.js:93-95 | filtering out a handler that is not registered leaves the list unchanged |
| Events.SubscribeThenWithout | CamMan.js:85-95 | filtering out `h` after appending `h` gives the same list as filtering the list before the append |
| Events.OffAsWritten | CamMan.js:92-96 | as written, `off` leaves no event with an entry in the table |
| Events.OffAsWrittenDropsOtherEvents | CamMan.js:92-96 | as written, `off(e, h)` makes every other event that had handlers publish nothing |
| Events.OffAsWrittenExample | CamMan.js:92-96 | with handlers on `start` and `error`, `off('start', …)` leaves an `error` with no handler to call |
| Events.Unsubscribe | CamMan.js:92-96 | the intended `off` keeps the same event names, filters `e`'s list only, and leaves every other list unchanged |
| Events.UnsubscribeThenPublish | CamMan.js:92-105 | after the intended `off(e, h)`, triggering `e` calls the filtered list in order and never `h`; other events make the same calls as before |
| Events.UnsubscribeUndoesSubscribe | CamMan.js:85-96 | the intended `off(e, h)` after `on(e, h)` restores the table when `e` already had an entry and `h` was not in it |
| Surfaces.TickEffectsAppend | CamMan.js:73-80 | a tick over a concatenated registry is the tick over the first part, then over the second |
| Surfaces.TickEffectsSnoc | CamMan.js:73-80 | a tick over a registry with one more entry is the old tick followed by that entry's draw and callback |
| Surfaces.TickDrawsEveryCanvasInOrder | CamMan.js:73-80 | one redraw tick draws into every registered canvas exactly once, in registration order |
| Surfaces.TickCallsFollowTheirDraw | CamMan.js:76-79 | every call made during a tick is a frame callback; it receives a canvas right after that same canvas was drawn into |
| Surfaces.TickCallsEveryCallbackInOrder | CamMan.js:73-80 | the calls of one tick are exactly the registered frame callbacks, each with its own canvas, in registration order |
| Surfaces.TickCallsEachCallback | CamMan.js:77-79 | every entry with a frame callback has that callback called on a tick, with the entry's canvas |
| CamMan.CamMan.constructor | CamMan.js:27-39 | a new CamMan has an empty event table, empty registry and history, no stream or video, and options equal to the defaults merged with the caller's |
| CamMan.CamMan.SetOptions | CamMan.js:108-111 | the for-in loop leaves the options equal to the old options merged with the given ones |
| CamMan.CamMan.On | CamMan.js:85-89 | the table becomes `Subscribe(old table, e, h)`: `h` appended to `e`'s list, which is created if absent |
| CamMan.CamMan.Off | CamMan.js:92-96 | needs an entry for `e`; the table becomes what `off` as written leaves: no entries |
| CamMan.CamMan.Trigger | CamMan.js:99-105 | returns `false` and calls nothing when `e` has no entry; otherwise returns `undefined` after calling every registered handler with the payload, in order |
| CamMan.CamMan.CreateCanvas | CamMan.js:42-63 | with a zero video dimension: returns null and changes nothing. Otherwise: registers one new canvas of the video's size, returns it, and starts a loop exactly when the registry was empty |
| CamMan.CamMan.UpdateCanvas | CamMan.js:72-82 | one tick adds exactly `TickEffects(canvasStorage)` to the effects: per canvas, a draw followed by its callback |
| CamMan.CamMan.Snapshot | CamMan.js:150-166 | a new canvas sized by the arguments or, for a falsy one, by the video; it is drawn into, appended to the history, and the same canvas is published as `snapshot` and returned |
| CamMan.CamMan.Start | CamMan.js:169-191 | without the capability: publishes `error` with `Browser not supported` and returns `false`; with it: requests video true and the `audio` option as given, and returns `undefined` |
| CamMan.CamMan.Granted | CamMan.js:175-177 | the granted stream is kept, and a new video that plays it starts with unknown size and not streaming |
| CamMan.CamMan.Denied | CamMan.js:185-187 | the platform's error is published as `error`, unchanged |
| CamMan.CamMan.MediaLoaded | CamMan.js:44-47 | the video's natural size becomes the one the browser reports; nothing else changes |
| CamMan.CamMan.CanPlay | CamMan.js:129-137 | the first `canplay` sets the streaming flag and publishes `start`; later ones do nothing |
| CamMan.CamMan.Stop | CamMan.js:195-204 | needs a stream; stops it, empties the registry, publishes `stop`, returns `trigger`'s result; history, table, stream and video stay |
| Scenarios.OptionsAreSetCorrectly | test/tests.js:11-26 | the options given to the constructor, and later to `setOptions`, read back as given |
| Scenarios.StartWhenPermitted | test/tests.js:28-38 | a granted start requests video without audio and publishes `start` exactly once, even when `canplay` fires twice |
| Scenarios.ErrorWhenNotSupported | test/tests.js:72-88 | without `getUserMedia`, start returns `false`, publishes one `error` with `Browser not supported`, and creates no stream |
| Scenarios.ErrorWhenDenied | test/tests.js:90-99 | a denied start publishes the platform's error verbatim after requesting audio as configured |
| Scenarios.SnapshotsAfterStart | test/tests.js:40-54 | once the stream is granted and the video has its size, snapshots take the video's size for falsy arguments; each is drawn, published and kept in order; two snapshots are distinct canvases |
| Scenarios.CanvasesRepaintedInOrder | CamMan.js:42-82 | no canvas while the video size is unknown; then two canvases of the video's size, each tick repainting them in order with the first one's callback after its draw |
| Scenarios.StopThenNewCanvas | CamMan.js:195-204 | `stop` empties the registry, keeps snapshots and returns `undefined` with a `stop` handler; a later canvas starts a second, uncancelled loop |
| Scenarios.RestartAfterStop | test/tests.js:57-70 | a registered `stop` handler is called by `stop` right after the stream is stopped; a second start then requests media and publishes `start` again with the new stream |
| Scenarios.OffSilencesOtherEvents | CamMan.js:92-96 | after `off` on `start`, the `error` handler is gone, so an unsupported browser reports nothing |

## Left out

- The vendor-prefix lookups for `getUserMedia`, `requestAnimationFrame` and `URL` (CamMan.js:4-24) are left out. The availability of `getUserMedia` is the boolean argument of `Start`.
- DOM work is left out because it is all foreign browser calls. This covers element creation, `querySelector`, `appendChild`, `getContext`, pixel content of `drawImage` (kept only as a `Draw` effect), `getCanvas`, and mounting the video into the configured container.
- `getStreamURL`, creating and revoking object URLs, `video.play()` and `stream.stop()` itself are left out because they are browser I/O. Stopping is kept as a `StopStream` effect.
- The timing of `requestAnimationFrame` and its `setTimeout` fallback is left out. A loop is one tick method (`UpdateCanvas`) plus the `loopsStarted` counter.
- The floating-point display size and style assignment in `createVideo` (CamMan.js:131-133) are left out.
- Handlers and callbacks are opaque and have no effect beyond being recorded. A handler that calls back into CamMan, or changes the table during `trigger`, is not modelled, and neither is a handler that throws.
- Off: the array that replaces the table still answers to the names `0`, `1`, … and `length`. The model treats it as an empty table.
- Event names that clash with JavaScript object properties are not modelled: the table is a map in which every string is an ordinary key. In the code, `on('hasOwnProperty', h)` replaces the method that `on` and `trigger` call (CamMan.js:86, 100), so every later call throws. `on('__proto__', h)` replaces the table's prototype, after which `trigger('__proto__')` returns `false` without calling `h`.
- CanPlay: only the listener of the current video is modelled. A video replaced by a second `start` keeps its own listener in the browser, which could still publish `start`.
- SetOptions: inherited enumerable properties of the argument are not modelled. Its keys and values are a map.
- Snapshot: size arguments are natural numbers or missing. Other JavaScript values (strings, negative numbers, NaN) are not modelled.
- Browser errors that the code would throw are not modelled. They come from calling `createCanvas`, `snapshot` or `stop` before `start` succeeded, from `off` on an event with no entry (`undefined.filter`, CamMan.js:93), or from a missing container element. The corresponding methods require the state the code dereferences.

## Findings

| source | as written | input that shows it | evidently intended | confidence | as-written member | corrected member |
|---|---|---|---|---|---|---|
| CamMan.js:92-96 | `off` assigns the filtered handler array to `this.events`, replacing the whole event table | handlers on `start` and `error`, then `off('start', h)`: a later `trigger('error', …)` finds no entry and calls nothing | `this.events[event] = …filter(…)`: only that event's list is filtered | high (not executed) | Events.OffAsWrittenExample | Events.UnsubscribeThenPublish |

`CamMan.CamMan.Off` keeps the behaviour as written, so the class stays a model of the code. `Events.Unsubscribe` is the corrected definition; its properties are proved in `Events.UnsubscribeThenPublish` and `Events.UnsubscribeUndoesSubscribe`.
