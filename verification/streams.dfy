/**
 * A source stream as the tracker observes it on one run's virtual clock: the
 * finite, time-ordered list of items it emits, each either a plain value or
 * itself a stream (a stream of streams), and how it ends.
 */
module Streams {

  /** A virtual-clock timestamp (the scheduler's frame number). */
  type Time = int

  datatype Item<T> = Value(value: T) | Inner(trace: Trace<T>)

  datatype Emission<T> = Emission(time: Time, item: Item<T>)

  /** A stream completes, errors, or is still open when the clock runs out. */
  datatype Ending = Completes(at: Time) | Fails(at: Time) | Continues

  /**
   * A stream: its emissions and its ending. The first `sync` emissions are
   * delivered on subscription itself, before the virtual clock is flushed
   * (as `of(1, 2, 3)` delivers its values); the rest are scheduled on the
   * clock. `endsSync` says the ending is delivered on subscription too,
   * which it can only be once every emission is.
   */
  datatype Trace<T> = Trace(emissions: seq<Emission<T>>, ending: Ending, sync: nat, endsSync: bool)

  /** How many emissions arrive on subscription itself. */
  function SyncCount<T>(t: Trace<T>): (n: nat)
    ensures n <= |t.emissions| && n <= t.sync
    ensures n == |t.emissions| || n == t.sync
  {
    if t.sync < |t.emissions| then t.sync else |t.emissions|
  }

  /** Whether the ending arrives on subscription itself. */
  predicate EndsOnSubscription<T>(t: Trace<T>)
  {
    t.endsSync && |t.emissions| <= t.sync
  }

  /**
   * What a subscriber sees of `t` when the virtual clock is never flushed:
   * the emissions delivered on subscription, inner streams cut the same way,
   * and the ending only when it is delivered on subscription as well.
   */
  function Synchronous<T>(t: Trace<T>): (s: Trace<T>)
    ensures |s.emissions| == SyncCount(t)
    ensures forall i :: 0 <= i < |s.emissions| ==> s.emissions[i] == SynchronousEmission(t.emissions[i])
    ensures s.ending == if EndsOnSubscription(t) then t.ending else Continues
    ensures s.sync == |s.emissions| && s.endsSync
    decreases t
  {
    Trace(seq(SyncCount(t), i requires 0 <= i < SyncCount(t) => SynchronousEmission(t.emissions[i])),
          if EndsOnSubscription(t) then t.ending else Continues,
          SyncCount(t), true)
  }

  /** One emission delivered on subscription, an inner stream cut to what it delivers on its own subscription. */
  function SynchronousEmission<T>(e: Emission<T>): (r: Emission<T>)
    ensures r.time == e.time
    ensures e.item.Value? ==> r == e
    ensures e.item.Inner? ==> r.item.Inner?
    decreases e
  {
    match e.item
    case Value(_) => e
    case Inner(inner) => Emission(e.time, Inner(Synchronous(inner)))
  }

  /** Cutting twice is cutting once: what arrives on subscription all arrives on subscription. */
  lemma {:induction false} SynchronousIdempotent<T>(t: Trace<T>)
    ensures Synchronous(Synchronous(t)) == Synchronous(t)
    decreases t
  {
    var s := Synchronous(t);
    forall i | 0 <= i < |s.emissions|
      ensures SynchronousEmission(s.emissions[i]) == s.emissions[i]
    {
      SynchronousEmissionIdempotent(t.emissions[i]);
    }
    assert Synchronous(s).emissions == s.emissions;
  }

  lemma {:induction false} SynchronousEmissionIdempotent<T>(e: Emission<T>)
    ensures SynchronousEmission(SynchronousEmission(e)) == SynchronousEmission(e)
    decreases e
  {
    match e.item
    case Value(_) =>
    case Inner(inner) =>
      SynchronousIdempotent(inner);
  }

  /**
   * The virtual clock never runs backwards: a stream subscribed at `from`
   * emits at times no earlier than `from`, in non-decreasing order, ends no
   * earlier than its last emission, and an inner stream emitted at time `t`
   * is itself well timed from `t` (it is subscribed when it is emitted).
   * What is delivered on subscription happens at `from` itself.
   */
  ghost predicate WellTimed<T>(t: Trace<T>, from: Time)
  {
    (forall i :: 0 <= i < SyncCount(t) ==> t.emissions[i].time == from)
    && (EndsOnSubscription(t) && !t.ending.Continues? ==> t.ending.at == from)
    && (forall i :: 0 <= i < |t.emissions| ==> from <= t.emissions[i].time)
    && (forall i, j :: 0 <= i < j < |t.emissions| ==> t.emissions[i].time <= t.emissions[j].time)
    && (!t.ending.Continues? ==>
          from <= t.ending.at && forall i :: 0 <= i < |t.emissions| ==> t.emissions[i].time <= t.ending.at)
    && (forall i :: 0 <= i < |t.emissions| && t.emissions[i].item.Inner? ==>
          WellTimed(t.emissions[i].item.trace, t.emissions[i].time))
  }
}
