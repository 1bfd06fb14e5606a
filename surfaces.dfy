/**
 * The canvas registry and one tick of the redraw loop that repaints it.
 */
module Surfaces {
  import opened Values

  /** An entry of `canvasStorage`: the canvas (its 2D context is implied) and its frame callback. */
  datatype CanvasEntry = CanvasEntry(canvas: Canvas, onFrame: Option<Handler>)

  /** One entry's share of a tick: draw the frame, then call the callback with the canvas. */
  function EntryEffects(entry: CanvasEntry): seq<Effect>
  {
    [Draw(entry.canvas)] +
    match entry.onFrame
    case Some(h) => [Invoke(h, CanvasData(entry.canvas))]
    case None => []
  }

  /** One tick of `updateCanvas`: every entry, in registration order. */
  function TickEffects(storage: seq<CanvasEntry>): seq<Effect>
  {
    if storage == [] then [] else EntryEffects(storage[0]) + TickEffects(storage[1..])
  }

  lemma {:induction false} TickEffectsAppend(a: seq<CanvasEntry>, b: seq<CanvasEntry>)
    ensures TickEffects(a + b) == TickEffects(a) + TickEffects(b)
  {
    if a != [] {
      assert (a + b)[0] == a[0] && (a + b)[1..] == a[1..] + b;
      TickEffectsAppend(a[1..], b);
    } else {
      assert a + b == b;
    }
  }

  /** A tick over a registry with one more entry ends with that entry's share. */
  lemma TickEffectsSnoc(storage: seq<CanvasEntry>, entry: CanvasEntry)
    ensures TickEffects(storage + [entry]) == TickEffects(storage) + EntryEffects(entry)
  {
    TickEffectsAppend(storage, [entry]);
    assert [entry][1..] == [];
  }

  /** The canvases of a registry, in order. */
  function Canvases(storage: seq<CanvasEntry>): (r: seq<Canvas>)
    ensures |r| == |storage|
    ensures forall i :: 0 <= i < |storage| ==> r[i] == storage[i].canvas
  {
    seq(|storage|, i requires 0 <= i < |storage| => storage[i].canvas)
  }

  /** The canvases drawn into by a run of effects, in order. */
  function Drawn(effects: seq<Effect>): seq<Canvas>
  {
    if effects == [] then []
    else (if effects[0].Draw? then [effects[0].canvas] else []) + Drawn(effects[1..])
  }

  lemma {:induction false} DrawnAppend(a: seq<Effect>, b: seq<Effect>)
    ensures Drawn(a + b) == Drawn(a) + Drawn(b)
  {
    if a != [] {
      assert (a + b)[0] == a[0] && (a + b)[1..] == a[1..] + b;
      DrawnAppend(a[1..], b);
    } else {
      assert a + b == b;
    }
  }

  /** A tick draws into every registered canvas exactly once, in registration order. */
  lemma {:induction false} TickDrawsEveryCanvasInOrder(storage: seq<CanvasEntry>)
    ensures Drawn(TickEffects(storage)) == Canvases(storage)
  {
    if storage != [] {
      var e := storage[0];
      DrawnAppend(EntryEffects(e), TickEffects(storage[1..]));
      assert Drawn(EntryEffects(e)) == [e.canvas] by {
        assert EntryEffects(e)[1..] == if e.onFrame.Some? then [Invoke(e.onFrame.value, CanvasData(e.canvas))] else [];
      }
      TickDrawsEveryCanvasInOrder(storage[1..]);
    }
  }

  /**
   * Within a tick every call is a frame callback, made with a canvas just
   * after that very canvas was drawn into.
   */
  ghost predicate CallsFollowTheirDraw(effects: seq<Effect>)
  {
    forall k :: 0 <= k < |effects| && effects[k].Invoke? ==>
      0 < k && effects[k].data.CanvasData? && effects[k - 1] == Draw(effects[k].data.canvas)
  }

  lemma {:induction false} TickCallsFollowTheirDraw(storage: seq<CanvasEntry>)
    ensures CallsFollowTheirDraw(TickEffects(storage))
  {
    if storage != [] {
      var head, tail := EntryEffects(storage[0]), TickEffects(storage[1..]);
      TickCallsFollowTheirDraw(storage[1..]);
      var t := head + tail;
      forall k | 0 <= k < |t| && t[k].Invoke?
        ensures 0 < k && t[k].data.CanvasData? && t[k - 1] == Draw(t[k].data.canvas)
      {
        if k >= |head| {
          assert t[k] == tail[k - |head|];
          if k - |head| == 0 {
            assert false;
          }
        }
      }
    }
  }

  /** The calls among a run of effects, in order. */
  function Called(effects: seq<Effect>): seq<Effect>
  {
    if effects == [] then []
    else (if effects[0].Invoke? then [effects[0]] else []) + Called(effects[1..])
  }

  lemma {:induction false} CalledAppend(a: seq<Effect>, b: seq<Effect>)
    ensures Called(a + b) == Called(a) + Called(b)
  {
    if a != [] {
      assert (a + b)[0] == a[0] && (a + b)[1..] == a[1..] + b;
      CalledAppend(a[1..], b);
    } else {
      assert a + b == b;
    }
  }

  /** The registry's frame callbacks, each with its own canvas, in registration order. */
  function FrameCallbacks(storage: seq<CanvasEntry>): seq<Effect>
  {
    if storage == [] then []
    else
      (match storage[0].onFrame
       case Some(h) => [Invoke(h, CanvasData(storage[0].canvas))]
       case None => [])
      + FrameCallbacks(storage[1..])
  }

  /**
   * The calls of a tick are exactly the registered frame callbacks, each
   * given its own canvas, in registration order.
   */
  lemma {:induction false} TickCallsEveryCallbackInOrder(storage: seq<CanvasEntry>)
    ensures Called(TickEffects(storage)) == FrameCallbacks(storage)
  {
    if storage != [] {
      var e := storage[0];
      CalledAppend(EntryEffects(e), TickEffects(storage[1..]));
      CalledAppend([Draw(e.canvas)], EntryEffects(e)[1..]);
      assert EntryEffects(e) == [Draw(e.canvas)] + EntryEffects(e)[1..];
      assert [Draw(e.canvas)][1..] == [];
      if e.onFrame.Some? {
        assert EntryEffects(e)[1..][1..] == [];
      }
      TickCallsEveryCallbackInOrder(storage[1..]);
    }
  }

  /** Every registered frame callback is called on a tick, with its own canvas. */
  lemma {:induction false} TickCallsEachCallback(storage: seq<CanvasEntry>, i: nat)
    requires i < |storage| && storage[i].onFrame.Some?
    ensures Invoke(storage[i].onFrame.value, CanvasData(storage[i].canvas)) in TickEffects(storage)
  {
    var head := EntryEffects(storage[0]);
    if i == 0 {
      assert head[1] == Invoke(storage[0].onFrame.value, CanvasData(storage[0].canvas));
      assert head[1] == (head + TickEffects(storage[1..]))[1];
    } else {
      TickCallsEachCallback(storage[1..], i - 1);
      var k :| 0 <= k < |TickEffects(storage[1..])| && TickEffects(storage[1..])[k] == Invoke(storage[i].onFrame.value, CanvasData(storage[i].canvas));
      assert (head + TickEffects(storage[1..]))[|head| + k] == TickEffects(storage[1..])[k];
    }
  }
}
