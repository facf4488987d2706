/**
 * What the tracker records: timed events stamped with ids from one
 * process-wide counter, grouped into histories that may nest.
 */
module Histories {
  import opened Wrappers
  import opened Streams

  /** An event's payload: the emitted value, or the history of an emitted stream. */
  datatype Data<T> = Plain(value: T) | Nested(history: History<T>)

  datatype Event<T> = Event(id: nat, time: Time, data: Data<T>)

  /** `endTime` is `None` while the tracked stream has not completed. */
  datatype History<T> = History(name: string, startTime: Time, endTime: Option<Time>, events: seq<Event<T>>)

  /**
   * The static id counter of TrackingEvent: one object shared by every
   * group and every run of the process.
   */
  class EventCounter {
    var next: nat

    constructor ()
      ensures next == 0
    {
      next := 0;
    }

    /** A new event takes the counter's current value as its id and bumps the counter. */
    method NewEvent<T>(time: Time, data: Data<T>) returns (e: Event<T>)
      modifies this
      ensures e == Event(old(next), time, data)
      ensures next == old(next) + 1
    {
      e := Event(next, time, data);
      next := next + 1;
    }
  }

  /** The ids lo, lo + 1, ..., hi - 1. */
  function Range(lo: nat, hi: nat): (r: seq<nat>)
    requires lo <= hi
    ensures |r| == hi - lo
    ensures forall i :: 0 <= i < |r| ==> r[i] == lo + i
  {
    seq(hi - lo, i requires 0 <= i < hi - lo => lo + i)
  }

  lemma RangeSplit(lo: nat, mid: nat, hi: nat)
    requires lo <= mid <= hi
    ensures Range(lo, mid) + Range(mid, hi) == Range(lo, hi)
  {
  }

  /**
   * Every id recorded in `h`, its nested histories included, in the order
   * the events were created: a nested history's events before the event
   * that carries it.
   */
  function Ids<T>(h: History<T>): seq<nat>
    decreases h, |h.events| + 1
  {
    IdsUpTo(h, |h.events|)
  }

  function IdsUpTo<T>(h: History<T>, k: nat): seq<nat>
    requires k <= |h.events|
    decreases h, k
  {
    if k == 0 then []
    else
      var e := h.events[k - 1];
      IdsUpTo(h, k - 1) + (if e.data.Nested? then Ids(e.data.history) else []) + [e.id]
  }

  /** No history, at any depth of nesting, holds more than `cap` events. */
  ghost predicate Capped<T>(h: History<T>, cap: nat)
  {
    |h.events| <= cap
    && forall i :: 0 <= i < |h.events| && h.events[i].data.Nested? ==> Capped(h.events[i].data.history, cap)
  }

  /**
   * Timestamps read as a timeline: events no earlier than the start and in
   * non-decreasing order, the end (if any) after the start and after every
   * event, and each nested history starting at the time of the event that
   * carries it and itself chronological.
   */
  ghost predicate Chronological<T>(h: History<T>)
  {
    (forall i :: 0 <= i < |h.events| ==> h.startTime <= h.events[i].time)
    && (forall i, j :: 0 <= i < j < |h.events| ==> h.events[i].time <= h.events[j].time)
    && (h.endTime.Some? ==>
          h.startTime <= h.endTime.value && forall i :: 0 <= i < |h.events| ==> h.events[i].time <= h.endTime.value)
    && (forall i :: 0 <= i < |h.events| && h.events[i].data.Nested? ==>
          h.events[i].data.history.startTime == h.events[i].time && Chronological(h.events[i].data.history))
  }

  /** `h` starts at `time`, and every event in it, at every depth, and every end lie at `time` too. */
  ghost predicate StampedAt<T>(h: History<T>, time: Time)
  {
    h.startTime == time
    && (h.endTime.Some? ==> h.endTime.value == time)
    && (forall i :: 0 <= i < |h.events| ==> h.events[i].time == time)
    && (forall i :: 0 <= i < |h.events| && h.events[i].data.Nested? ==> StampedAt(h.events[i].data.history, time))
  }

  /** `h` with every id, at every depth, moved up by `d`. */
  function Shift<T>(h: History<T>, d: nat): History<T>
    decreases h, |h.events| + 1
  {
    h.(events := ShiftUpTo(h, |h.events|, d))
  }

  function ShiftUpTo<T>(h: History<T>, k: nat, d: nat): seq<Event<T>>
    requires k <= |h.events|
    decreases h, k
  {
    if k == 0 then [] else ShiftUpTo(h, k - 1, d) + [ShiftEvent(h.events[k - 1], d)]
  }

  function ShiftEvent<T>(e: Event<T>, d: nat): Event<T>
    decreases e
  {
    match e.data
    case Plain(v) => Event(e.id + d, e.time, Plain(v))
    case Nested(n) => Event(e.id + d, e.time, Nested(Shift(n, d)))
  }
}
