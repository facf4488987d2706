/**
 * The tracker as a function: what `track` records for a source stream,
 * given the time it is subscribed and the value of the event-id counter at
 * that moment. `take(100)` sits in front of the recording step, so only the
 * first 100 items are seen and the 100th also completes the tracked stream.
 */
module Recording {
  import opened Wrappers
  import opened Streams
  import opened Histories

  /** The `take(100)` in front of the recording step. */
  const Cap: nat := 100

  /** The name every nested history reports. */
  const NestedName: string := "test"

  datatype Recorded<T> = Recorded(history: History<T>, nextId: nat)

  datatype Progress<T> = Progress(events: seq<Event<T>>, nextId: nat)

  datatype Step<T> = Step(event: Event<T>, nextId: nat)

  /** How many items pass `take(100)`. */
  function Taken<T>(t: Trace<T>): nat
  {
    if |t.emissions| < Cap then |t.emissions| else Cap
  }

  /** When the tracked stream completes: at the 100th item, or when the source completes before it. */
  function EndTime<T>(t: Trace<T>): Option<Time>
  {
    if Cap <= |t.emissions| then Some(t.emissions[Cap - 1].time)
    else if t.ending.Completes? then Some(t.ending.at)
    else None
  }

  /** The history recorded for `t` subscribed at `start`, and the counter afterwards. */
  function Record<T>(t: Trace<T>, name: string, start: Time, id: nat): (r: Recorded<T>)
    ensures id <= r.nextId
    decreases t, |t.emissions| + 1
  {
    var p := RecordUpTo(t, Taken(t), id);
    Recorded(History(name, start, EndTime(t), p.events), p.nextId)
  }

  /** The events recorded for the first `k` items. */
  function RecordUpTo<T>(t: Trace<T>, k: nat, id: nat): (p: Progress<T>)
    requires k <= |t.emissions|
    ensures |p.events| == k
    ensures id <= p.nextId
    decreases t, k
  {
    if k == 0 then Progress([], id)
    else
      var p := RecordUpTo(t, k - 1, id);
      var s := RecordItem(t.emissions[k - 1], p.nextId);
      Progress(p.events + [s.event], s.nextId)
  }

  /**
   * One item: a stream item is tracked first, into a fresh nested history
   * that starts at the emission time, and the event carrying it is created
   * after that.
   */
  function RecordItem<T>(e: Emission<T>, id: nat): (s: Step<T>)
    ensures id < s.nextId
    decreases e
  {
    match e.item
    case Value(v) => Step(Event(id, e.time, Plain(v)), id + 1)
    case Inner(inner) =>
      var nested := Record(inner, NestedName, e.time, id);
      Step(Event(nested.nextId, e.time, Nested(nested.history)), nested.nextId + 1)
  }

  /** The counter value just before item `i` is recorded. */
  function IdBefore<T>(t: Trace<T>, i: nat, id: nat): nat
    requires i <= |t.emissions|
  {
    RecordUpTo(t, i, id).nextId
  }

  /** Item `i` is recorded once and for all: later items only append. */
  lemma {:induction false} RecordUpToAt<T>(t: Trace<T>, k: nat, id: nat, i: nat)
    requires i < k <= |t.emissions|
    ensures RecordUpTo(t, k, id).events[i] == RecordItem(t.emissions[i], IdBefore(t, i, id)).event
    decreases k
  {
    var p := RecordUpTo(t, k - 1, id);
    assert RecordUpTo(t, k, id).events == p.events + [RecordItem(t.emissions[k - 1], p.nextId).event];
    if i < k - 1 {
      RecordUpToAt(t, k - 1, id, i);
    }
  }

  /**
   * The shape of a recorded history: its name and start are the given ones,
   * it holds one event per item that passed the cap, at the item's time,
   * carrying the value or a fresh nested history named "test" that starts
   * at the emission time; it ends at the 100th item, or when the source
   * completes before that, and otherwise has no end.
   */
  lemma RecordShape<T>(t: Trace<T>, name: string, start: Time, id: nat)
    ensures var h := Record(t, name, start, id).history;
      && h.name == name
      && h.startTime == start
      && |h.events| == (if |t.emissions| < Cap then |t.emissions| else Cap)
      && (h.endTime == if Cap <= |t.emissions| then Some(t.emissions[Cap - 1].time)
                       else if t.ending.Completes? then Some(t.ending.at)
                       else None)
      && forall i :: 0 <= i < |h.events| ==>
           && h.events[i].time == t.emissions[i].time
           && (t.emissions[i].item.Value? ==> h.events[i].data == Plain(t.emissions[i].item.value))
           && (t.emissions[i].item.Inner? ==>
                 h.events[i].data == Nested(Record(t.emissions[i].item.trace, NestedName, t.emissions[i].time,
                                                   IdBefore(t, i, id)).history))
  {
    forall i | 0 <= i < Taken(t)
      ensures RecordUpTo(t, Taken(t), id).events[i] == RecordItem(t.emissions[i], IdBefore(t, i, id)).event
    {
      RecordUpToAt(t, Taken(t), id, i);
    }
  }

  /**
   * Tracking a stream whose clock is never flushed: no more events than it
   * delivers on subscription, an end only when it completes on subscription
   * or reaches the cap then, and a stream that delivers nothing on
   * subscription leaves an empty, open history and consumes no id.
   */
  lemma RecordSynchronous<T>(t: Trace<T>, name: string, start: Time, id: nat)
    ensures var h := Record(Synchronous(t), name, start, id).history;
      && |h.events| <= t.sync
      && (h.endTime.Some? ==> (EndsOnSubscription(t) && t.ending.Completes?) || Cap <= t.sync)
    ensures t.sync == 0 && !t.endsSync ==>
      Record(Synchronous(t), name, start, id) == Recorded(History(name, start, None, []), id)
  {
    RecordShape(Synchronous(t), name, start, id);
  }

  /**
   * With no flush the clock stays at the subscription time, so everything a
   * stream delivers on subscription is recorded then: every event, nested
   * ones included, and the end.
   */
  lemma {:induction false} RecordSynchronousAt<T>(t: Trace<T>, name: string, start: Time, id: nat)
    requires WellTimed(t, start)
    ensures StampedAt(Record(Synchronous(t), name, start, id).history, start)
    decreases t
  {
    var s := Synchronous(t);
    var h := Record(s, name, start, id).history;
    RecordShape(s, name, start, id);
    forall i | 0 <= i < |h.events| && h.events[i].data.Nested?
      ensures StampedAt(h.events[i].data.history, start)
    {
      var e := t.emissions[i];
      assert s.emissions[i] == SynchronousEmission(e);
      assert e.item.Inner?;
      RecordSynchronousAt(e.item.trace, NestedName, start, IdBefore(s, i, id));
    }
  }

  /** Hitting the cap completes the tracked stream: 100 events, ending at the 100th item. */
  lemma CapCompletes<T>(t: Trace<T>, name: string, start: Time, id: nat)
    requires Cap <= |t.emissions|
    ensures |Record(t, name, start, id).history.events| == Cap
    ensures Record(t, name, start, id).history.endTime == Some(t.emissions[Cap - 1].time)
  {
    RecordShape(t, name, start, id);
  }

  /** No history the tracker records, nested ones included, holds more than 100 events. */
  lemma {:induction false} RecordCapped<T>(t: Trace<T>, name: string, start: Time, id: nat)
    ensures Capped(Record(t, name, start, id).history, Cap)
    decreases t
  {
    var h := Record(t, name, start, id).history;
    RecordShape(t, name, start, id);
    forall i | 0 <= i < |h.events| && h.events[i].data.Nested?
      ensures Capped(h.events[i].data.history, Cap)
    {
      var e := t.emissions[i];
      RecordCapped(e.item.trace, NestedName, e.time, IdBefore(t, i, id));
    }
  }

  /**
   * Under a clock that never runs backwards, every recorded history is a
   * timeline: events in emission order no earlier than the start, the end
   * after all of them, nested histories starting at their emission time.
   */
  lemma {:induction false} RecordChronological<T>(t: Trace<T>, name: string, start: Time, id: nat)
    requires WellTimed(t, start)
    ensures Chronological(Record(t, name, start, id).history)
    decreases t
  {
    var h := Record(t, name, start, id).history;
    RecordShape(t, name, start, id);
    forall i | 0 <= i < |h.events| && h.events[i].data.Nested?
      ensures h.events[i].data.history.startTime == h.events[i].time
      ensures Chronological(h.events[i].data.history)
    {
      var e := t.emissions[i];
      RecordShape(e.item.trace, NestedName, e.time, IdBefore(t, i, id));
      RecordChronological(e.item.trace, NestedName, e.time, IdBefore(t, i, id));
    }
  }

  /**
   * Ids: the events of one tracked stream, nested ones included, take
   * exactly the consecutive counter values from `id` up to the counter's
   * new value, in creation order — so they are distinct and increasing.
   */
  lemma {:induction false} RecordIds<T>(t: Trace<T>, name: string, start: Time, id: nat)
    ensures Ids(Record(t, name, start, id).history) == Range(id, Record(t, name, start, id).nextId)
    decreases t, |t.emissions| + 1
  {
    var h := Record(t, name, start, id).history;
    RecordUpToIds(t, Taken(t), id, h);
  }

  lemma {:induction false} RecordUpToIds<T>(t: Trace<T>, k: nat, id: nat, h: History<T>)
    requires k <= |t.emissions| && k <= |h.events|
    requires h.events[..k] == RecordUpTo(t, k, id).events
    ensures IdsUpTo(h, k) == Range(id, RecordUpTo(t, k, id).nextId)
    decreases t, k
  {
    if k > 0 {
      var p := RecordUpTo(t, k - 1, id);
      var s := RecordItem(t.emissions[k - 1], p.nextId);
      assert h.events[..k] == p.events + [s.event];
      assert h.events[..k - 1] == h.events[..k][..k - 1];
      RecordUpToIds(t, k - 1, id, h);
      assert h.events[k - 1] == h.events[..k][k - 1] == s.event;
      RecordItemIds(t.emissions[k - 1], p.nextId);
      RangeSplit(id, p.nextId, s.nextId);
    }
  }

  /** One recorded item takes the ids from `id` up to its counter value, its own id last. */
  lemma {:induction false} RecordItemIds<T>(e: Emission<T>, id: nat)
    ensures var ev := RecordItem(e, id).event;
      (if ev.data.Nested? then Ids(ev.data.history) else []) + [ev.id] == Range(id, RecordItem(e, id).nextId)
    decreases e, 0
  {
    match e.item
    case Value(_) =>
    case Inner(inner) =>
      var nested := Record(inner, NestedName, e.time, id);
      RecordIds(inner, NestedName, e.time, id);
      RangeSplit(id, nested.nextId, nested.nextId + 1);
  }

  /**
   * Determinism: recording the same stream from a different counter value
   * gives the same history with every id moved by the same amount.
   */
  lemma {:induction false} RecordShift<T>(t: Trace<T>, name: string, start: Time, id: nat, d: nat)
    ensures Record(t, name, start, id + d)
         == Recorded(Shift(Record(t, name, start, id).history, d), Record(t, name, start, id).nextId + d)
    decreases t, |t.emissions| + 1
  {
    var h := Record(t, name, start, id).history;
    RecordUpToShift(t, Taken(t), id, d, h);
  }

  lemma {:induction false} RecordUpToShift<T>(t: Trace<T>, k: nat, id: nat, d: nat, h: History<T>)
    requires k <= |t.emissions| && k <= |h.events|
    requires h.events[..k] == RecordUpTo(t, k, id).events
    ensures RecordUpTo(t, k, id + d) == Progress(ShiftUpTo(h, k, d), RecordUpTo(t, k, id).nextId + d)
    decreases t, k
  {
    if k > 0 {
      var p := RecordUpTo(t, k - 1, id);
      var e := t.emissions[k - 1];
      var s := RecordItem(e, p.nextId);
      assert h.events[..k] == p.events + [s.event];
      assert h.events[..k - 1] == h.events[..k][..k - 1];
      RecordUpToShift(t, k - 1, id, d, h);
      assert h.events[k - 1] == h.events[..k][k - 1] == s.event;
      RecordItemShift(e, p.nextId, d);
    }
  }

  /** One recorded item, started `d` later on the counter, is the same item with its ids moved by `d`. */
  lemma {:induction false} RecordItemShift<T>(e: Emission<T>, id: nat, d: nat)
    ensures RecordItem(e, id + d) == Step(ShiftEvent(RecordItem(e, id).event, d), RecordItem(e, id).nextId + d)
    decreases e, 0
  {
    match e.item
    case Value(_) =>
    case Inner(inner) =>
      RecordShift(inner, NestedName, e.time, id, d);
  }

  /**
   * A stream that emits 1, 2, 3 at time 0 and completes at time 0, tracked
   * from time 0, records three events at time 0 with consecutive ids and
   * ends at time 0.
   */
  lemma ThreeValuesThenComplete(name: string, id: nat)
    ensures Record(Trace([Emission(0, Value(1)), Emission(0, Value(2)), Emission(0, Value(3))], Completes(0), 3, true),
                   name, 0, id).history
         == History(name, 0, Some(0), [Event(id, 0, Plain(1)), Event(id + 1, 0, Plain(2)), Event(id + 2, 0, Plain(3))])
  {
    var t := Trace([Emission(0, Value(1)), Emission(0, Value(2)), Emission(0, Value(3))], Completes(0), 3, true);
    assert RecordUpTo(t, 1, id) == Progress([Event(id, 0, Plain(1))], id + 1);
    assert RecordUpTo(t, 2, id) == Progress([Event(id, 0, Plain(1)), Event(id + 1, 0, Plain(2))], id + 2);
  }
}
