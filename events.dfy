/**
 * CamMan's event table: event names mapped to the handlers registered for
 * them, in registration order, and what publishing an event does with it.
 */
module Events {
  import opened Values

  type Table = map<string, seq<Handler>>

  /** The handlers registered for `e`; an event without an entry has none. */
  function Listeners(t: Table, e: string): seq<Handler>
  {
    if e in t then t[e] else []
  }

  /** `on(e, h)`: `h` goes to the end of `e`'s list, which is created if absent. */
  function Subscribe(t: Table, e: string, h: Handler): Table
  {
    t[e := Listeners(t, e) + [h]]
  }

  /** The calls `trigger` makes when handlers `hs` receive `d`: one per registration, in order. */
  function Invocations(hs: seq<Handler>, d: Payload): (r: seq<Effect>)
    ensures |r| == |hs|
  {
    if hs == [] then [] else [Invoke(hs[0], d)] + Invocations(hs[1..], d)
  }

  /** The i-th call goes to the i-th registered handler, with the payload. */
  lemma {:induction false} InvocationsAt(hs: seq<Handler>, d: Payload, i: nat)
    requires i < |hs|
    ensures Invocations(hs, d)[i] == Invoke(hs[i], d)
  {
    if i > 0 {
      InvocationsAt(hs[1..], d, i - 1);
    }
  }

  /** The effects of `trigger(e, d)`: nothing for an event without an entry. */
  function Published(t: Table, e: string, d: Payload): seq<Effect>
  {
    Invocations(Listeners(t, e), d)
  }

  /** A handler is called exactly when it is registered. */
  lemma {:induction false} InvokedIffRegistered(hs: seq<Handler>, d: Payload, h: Handler)
    ensures Invoke(h, d) in Invocations(hs, d) <==> h in hs
  {
    if hs != [] {
      InvokedIffRegistered(hs[1..], d, h);
      assert hs == [hs[0]] + hs[1..];
    }
  }

  /** An event with a single handler calls just that handler. */
  lemma PublishedSingle(t: Table, e: string, h: Handler, d: Payload)
    requires e in t && t[e] == [h]
    ensures Published(t, e, d) == [Invoke(h, d)]
  {
    assert t[e][1..] == [];
  }

  lemma {:induction false} InvocationsAppend(a: seq<Handler>, b: seq<Handler>, d: Payload)
    ensures Invocations(a + b, d) == Invocations(a, d) + Invocations(b, d)
  {
    if a != [] {
      assert (a + b)[0] == a[0] && (a + b)[1..] == a[1..] + b;
      InvocationsAppend(a[1..], b, d);
    } else {
      assert a + b == b;
    }
  }

  /**
   * Registering `h` for `e` makes the next `trigger(e, d)` call `h` once more,
   * last; every other event publishes exactly what it did before.
   */
  lemma SubscribeThenPublish(t: Table, e: string, h: Handler, d: Payload, other: string)
    requires other != e
    ensures Published(Subscribe(t, e, h), e, d) == Published(t, e, d) + [Invoke(h, d)]
    ensures Published(Subscribe(t, e, h), other, d) == Published(t, other, d)
  {
    InvocationsAppend(Listeners(t, e), [h], d);
  }

  /**
   * The `filter` in `off`: every occurrence of `h` goes, every other handler
   * stays as often as it was registered.
   */
  function Without(hs: seq<Handler>, h: Handler): (r: seq<Handler>)
    ensures h !in r
    ensures multiset(r) == multiset(hs)[h := 0]
  {
    if hs == [] then []
    else
      assert hs == [hs[0]] + hs[1..];
      (if hs[0] == h then [] else [hs[0]]) + Without(hs[1..], h)
  }

  /** Filtering keeps the survivors in their order: it distributes over concatenation. */
  lemma {:induction false} WithoutAppend(a: seq<Handler>, b: seq<Handler>, h: Handler)
    ensures Without(a + b, h) == Without(a, h) + Without(b, h)
  {
    if a != [] {
      assert (a + b)[0] == a[0] && (a + b)[1..] == a[1..] + b;
      WithoutAppend(a[1..], b, h);
    } else {
      assert a + b == b;
    }
  }

  /** A list without `h` is left as it is. */
  lemma {:induction false} WithoutAbsent(hs: seq<Handler>, h: Handler)
    requires h !in hs
    ensures Without(hs, h) == hs
  {
    if hs != [] {
      WithoutAbsent(hs[1..], h);
    }
  }

  /** Removing a handler undoes registering it, however often it was registered before. */
  lemma SubscribeThenWithout(hs: seq<Handler>, h: Handler)
    ensures Without(hs + [h], h) == Without(hs, h)
  {
    WithoutAppend(hs, [h], h);
  }

  /**
   * What `off(e, h)` leaves in `events` as written: the filtered array
   * replaces the whole table, and an array owns no property named after an
   * event, so no event keeps an entry.
   */
  function OffAsWritten(t: Table, e: string, h: Handler): (r: Table)
    requires e in t
    ensures forall other :: other !in r
  {
    map[]
  }

  /** As written, `off` silences every other event too. */
  lemma OffAsWrittenDropsOtherEvents(t: Table, e: string, h: Handler, other: string, d: Payload)
    requires e in t && other in t && other != e && t[other] != []
    ensures Published(OffAsWritten(t, e, h), other, d) == []
    ensures Published(t, other, d) != []
  {
  }

  /** A concrete table on which `off` as written loses the `'error'` handler. */
  lemma OffAsWrittenExample()
    ensures Published(OffAsWritten(map["start" := [Handler(1)], "error" := [Handler(2)]], "start", Handler(1)),
                      "error", Text("Browser not supported")) == []
  {
  }

  /** `off(e, h)` as evidently intended: only `e`'s list is filtered. */
  function Unsubscribe(t: Table, e: string, h: Handler): (r: Table)
    requires e in t
    ensures r.Keys == t.Keys
    ensures r[e] == Without(t[e], h)
    ensures forall other :: other in t && other != e ==> r[other] == t[other]
  {
    t[e := Without(t[e], h)]
  }

  /**
   * After the intended `off(e, h)`, `trigger(e, d)` calls the other handlers
   * of `e` in their order and never `h`; other events publish as before.
   */
  lemma UnsubscribeThenPublish(t: Table, e: string, h: Handler, d: Payload, other: string)
    requires e in t && other != e
    ensures Published(Unsubscribe(t, e, h), e, d) == Invocations(Without(t[e], h), d)
    ensures Invoke(h, d) !in Published(Unsubscribe(t, e, h), e, d)
    ensures Published(Unsubscribe(t, e, h), other, d) == Published(t, other, d)
  {
    InvokedIffRegistered(Without(t[e], h), d, h);
  }

  /** The intended `off` undoes `on` for a handler not registered before. */
  lemma UnsubscribeUndoesSubscribe(t: Table, e: string, h: Handler)
    requires e in t && h !in t[e]
    ensures Unsubscribe(Subscribe(t, e, h), e, h) == t
  {
    SubscribeThenWithout(t[e], h);
    WithoutAbsent(t[e], h);
  }
}
