/**
 * One evaluation of a group: check disposal, build the dependency view,
 * call the group's definition, pipe its stream through the tracker under
 * the group's name, drive the virtual clock, and hand back the histories
 * the tracker created — with every failure turned into an empty result.
 */
module Tracking {
  import opened Wrappers
  import opened Streams
  import opened Histories
  import opened Recording
  import opened Visibility

  /** The virtual clock of a fresh run starts at frame 0. */
  const ClockStart: Time := 0

  /** The name handed to the track operator: a string, a function giving one, or nothing. */
  datatype NameArg = Text(text: string) | Thunk(get: () -> string) | Absent

  /** A stream the definition pipes through the track operator itself, and when it is subscribed. */
  datatype Subscription<T> = Subscription(name: NameArg, at: Time, source: Trace<T>)

  /**
   * What a definition produces: a stream, an `{error}` value, or a thrown
   * exception. Any returned object with an `error` member counts as an
   * `{error}` value, a `Subject` (which has an `error` method) included.
   * `early` are the tracked streams the definition subscribes while it is
   * being called (a `connect()` inside it, say), in subscription order, all
   * before the root and whatever the outcome; `tracked` are those
   * subscribed through the root's pipeline, after it. The virtual clock is
   * flushed only after a stream is built, so on the other two outcomes the
   * early streams deliver only what they emit on subscription.
   */
  datatype Built<T> =
    | Pipeline(early: seq<Subscription<T>>, root: Trace<T>, tracked: seq<Subscription<T>>)
    | ErrorValue(early: seq<Subscription<T>>, error: string)
    | Raises(early: seq<Subscription<T>>, error: string)

  /**
   * A user definition (`observableCtor`): the names it reads from the
   * dependency view, in the order it reads them, and what it builds from
   * the histories found under those names.
   */
  datatype Definition<!T> = Definition(deps: seq<string>, build: seq<History<T>> -> Built<T>)

  /** How a run ended. */
  datatype Outcome = Skipped | Reported(error: string) | Caught(error: string) | Ran

  datatype Evaluation<T> = Evaluation(histories: seq<History<T>>, outcome: Outcome, nextId: nat)

  datatype Harvest<T> = Harvest(histories: seq<History<T>>, nextId: nat)

  /** The name normalisation of the track operator: a missing name becomes "". */
  function NameOf(arg: NameArg): (n: string)
    ensures arg.Text? ==> n == arg.text
    ensures arg.Absent? ==> n == ""
  {
    match arg
    case Text(s) => s
    case Thunk(f) => f()
    case Absent => ""
  }

  /**
   * The definition reads its dependencies through `get`, one after the
   * other; the first name that is not visible throws.
   */
  function ResolveAll<T>(deps: seq<string>, visible: map<string, History<T>>): (r: Result<seq<History<T>>, string>)
    ensures r.Success? <==> forall i :: 0 <= i < |deps| ==> deps[i] in visible
    ensures r.Success? ==> |r.value| == |deps| && forall i :: 0 <= i < |deps| ==> r.value[i] == visible[deps[i]]
    ensures r.Failure? ==> exists i :: 0 <= i < |deps| && deps[i] !in visible && r.error == MissingMessage(deps[i])
                                       && forall j :: 0 <= j < i ==> deps[j] in visible
  {
    if deps == [] then Success([])
    else
      match Lookup(visible, deps[0])
      case Failure(e) => Failure(e)
      case Success(h) =>
        match ResolveAll(deps[1..], visible)
        case Failure(e) =>
          assert forall j :: 1 <= j < |deps| ==> deps[j] == deps[1..][j - 1];
          Failure(e)
        case Success(hs) => Success([h] + hs)
  }

  /** The histories visible under `deps`, in order. */
  function View<T>(deps: seq<string>, visible: map<string, History<T>>): seq<History<T>>
    requires forall i :: 0 <= i < |deps| ==> deps[i] in visible
  {
    seq(|deps|, i requires 0 <= i < |deps| => visible[deps[i]])
  }

  /**
   * Calling the definition on the dependency view: the first dependency
   * that is not visible throws before anything is subscribed; otherwise
   * the definition receives the visible histories in the order it reads them.
   */
  function Construct<T>(def: Definition<T>, visible: map<string, History<T>>): (b: Built<T>)
    ensures forall i :: 0 <= i < |def.deps| && def.deps[i] !in visible && (forall j :: 0 <= j < i ==> def.deps[j] in visible)
              ==> b == Raises([], MissingMessage(def.deps[i]))
    ensures (forall i :: 0 <= i < |def.deps| ==> def.deps[i] in visible) ==> b == def.build(View(def.deps, visible))
  {
    var r := ResolveAll(def.deps, visible);
    assert r.Success? ==> r.value == View(def.deps, visible);
    match r
    case Failure(e) => Raises([], e)
    case Success(hs) => def.build(hs)
  }

  /** Streams subscribed while the definition runs are subscribed at the clock's start. */
  function AtClockStart<T>(subs: seq<Subscription<T>>): (r: seq<Subscription<T>>)
    ensures |r| == |subs|
    ensures forall i :: 0 <= i < |subs| ==> r[i] == subs[i].(at := ClockStart)
  {
    seq(|subs|, i requires 0 <= i < |subs| => subs[i].(at := ClockStart))
  }

  /** What the streams subscribed during construction record when the clock is flushed afterwards. */
  function RecordEarly<T>(early: seq<Subscription<T>>, id: nat): Harvest<T>
  {
    RecordSubscriptions(AtClockStart(early), |early|, id)
  }

  /** A stream subscribed during construction, at the clock's start, when the clock is never flushed. */
  function Unflushed<T>(s: Subscription<T>): Subscription<T>
  {
    s.(at := ClockStart, source := Synchronous(s.source))
  }

  function UnflushedAll<T>(subs: seq<Subscription<T>>): (r: seq<Subscription<T>>)
    ensures |r| == |subs|
    ensures forall i :: 0 <= i < |subs| ==> r[i] == Unflushed(subs[i])
  {
    seq(|subs|, i requires 0 <= i < |subs| => Unflushed(subs[i]))
  }

  /** What the streams subscribed during construction record when the clock is never flushed. */
  function RecordUnflushed<T>(early: seq<Subscription<T>>, id: nat): Harvest<T>
  {
    RecordSubscriptions(UnflushedAll(early), |early|, id)
  }

  /**
   * The histories of the streams the definition tracks itself, the most
   * recently subscribed first, and the counter afterwards.
   */
  function RecordSubscriptions<T>(subs: seq<Subscription<T>>, k: nat, id: nat): (r: Harvest<T>)
    requires k <= |subs|
    ensures |r.histories| == k
    ensures id <= r.nextId
  {
    if k == 0 then Harvest([], id)
    else
      var prior := RecordSubscriptions(subs, k - 1, id);
      var s := subs[k - 1];
      var r := Record(s.source, NameOf(s.name), s.at, prior.nextId);
      Harvest([r.history] + prior.histories, r.nextId)
  }

  /**
   * One run of the `observables` getter, as a function of the group and the
   * counter. An `{error}` value still returns what the definition tracked
   * while it ran, as far as those streams delivered on subscription (the
   * clock is not flushed); a thrown exception returns nothing, though the
   * ids those deliveries took stay consumed.
   */
  function Evaluate<T>(name: string, disposed: bool, def: Definition<T>,
                       groups: seq<GroupView<T>>, self: nat, id: nat): (e: Evaluation<T>)
    ensures id <= e.nextId
    ensures disposed ==> e == Evaluation([], Skipped, id)
    ensures e.outcome.Ran? <==> !disposed && Construct(def, Visible(groups, self)).Pipeline?
  {
    if disposed then Evaluation([], Skipped, id)
    else
      match Construct(def, Visible(groups, self))
      case ErrorValue(early, e) =>
        var pre := RecordUnflushed(early, id);
        Evaluation(pre.histories, Reported(e), pre.nextId)
      case Raises(early, e) =>
        Evaluation([], Caught(e), RecordUnflushed(early, id).nextId)
      case Pipeline(early, root, subs) => RunPipeline(name, early, root, subs, id)
  }

  /**
   * The streams tracked during construction, then the root (piped through
   * the tracker under the group's name) at the clock's start, then the
   * streams subscribed through the root's pipeline; each history is
   * prepended to the result list as its stream is subscribed.
   */
  function RunPipeline<T>(name: string, early: seq<Subscription<T>>, root: Trace<T>,
                          subs: seq<Subscription<T>>, id: nat): (e: Evaluation<T>)
    ensures e.outcome == Ran && |e.histories| == |subs| + 1 + |early|
    ensures id <= e.nextId
  {
    var pre := RecordEarly(early, id);
    var tail := Tail(name, root, subs, pre.nextId);
    Evaluation(tail.histories + pre.histories, Ran, tail.nextId)
  }

  /** The root's history and those subscribed through its pipeline, recorded from counter value `c`. */
  function Tail<T>(name: string, root: Trace<T>, subs: seq<Subscription<T>>, c: nat): Harvest<T>
  {
    var r := Record(root, name, ClockStart, c);
    var rest := RecordSubscriptions(subs, |subs|, r.nextId);
    Harvest(rest.histories + [r.history], rest.nextId)
  }

  /** A tracking group: its name, disposal flag and definition, and the process-wide event counter. */
  class TrackingGroup<T> {
    const counter: EventCounter
    var name: string
    var disposed: bool
    var observableCtor: Definition<T>

    constructor (counter: EventCounter, name: string, observableCtor: Definition<T>)
      ensures this.counter == counter && this.name == name && !disposed
      ensures this.observableCtor == observableCtor
    {
      this.counter := counter;
      this.name := name;
      this.disposed := false;
      this.observableCtor := observableCtor;
    }

    /** `getObservable`: call the definition with the dependency view. */
    function GetObservable(visible: map<string, History<T>>): (b: Built<T>)
      reads this
      ensures (exists i :: 0 <= i < |observableCtor.deps| && observableCtor.deps[i] !in visible) ==> b.Raises?
      ensures (forall i :: 0 <= i < |observableCtor.deps| ==> observableCtor.deps[i] in visible) ==>
          b == observableCtor.build(View(observableCtor.deps, visible))
    {
      Construct(observableCtor, visible)
    }

    /**
     * `track`: record `source`, subscribed at `start`, into a history named
     * `name`. Items that are themselves streams are tracked recursively into
     * fresh nested histories; `take(100)` completes the stream at its 100th item.
     */
    method Track(source: Trace<T>, name: string, start: Time) returns (h: History<T>)
      modifies counter
      ensures h == Record(source, name, start, old(counter.next)).history
      ensures counter.next == Record(source, name, start, old(counter.next)).nextId
      decreases source
    {
      ghost var id0 := counter.next;
      var events: seq<Event<T>> := [];
      var endTime: Option<Time> := None;
      var i := 0;
      while i < |source.emissions| && i < Cap
        invariant i <= Taken(source)
        invariant RecordUpTo(source, i, id0) == Progress(events, counter.next)
        invariant endTime == if i == Cap then Some(source.emissions[Cap - 1].time) else None
      {
        var e := source.emissions[i];
        var data: Data<T>;
        match e.item {
          case Value(v) =>
            data := Plain(v);
          case Inner(inner) =>
            var nested := Track(inner, NestedName, e.time);
            data := Nested(nested);
        }
        var event := counter.NewEvent(e.time, data);
        events := events + [event];
        i := i + 1;
        if i == Cap {
          endTime := Some(e.time);
        }
      }
      if i < Cap && source.ending.Completes? {
        endTime := Some(source.ending.at);
      }
      h := History(name, start, endTime, events);
    }

    /**
     * The track operator applied to each of `subs` in turn, each subscribed
     * at its own time: the new history goes to the front of the list.
     */
    method TrackAll(subs: seq<Subscription<T>>) returns (histories: seq<History<T>>)
      modifies counter
      ensures Harvest(histories, counter.next) == RecordSubscriptions(subs, |subs|, old(counter.next))
    {
      ghost var id0 := counter.next;
      histories := [];
      for i := 0 to |subs|
        invariant Harvest(histories, counter.next) == RecordSubscriptions(subs, i, id0)
      {
        var h := Track(subs[i].source, NameOf(subs[i].name), subs[i].at);
        histories := [h] + histories;
      }
    }

    /**
     * The `observables` getter: one evaluation on a fresh virtual clock.
     * `groups` is the registry and `self` this group's index in it.
     */
    method Observables(groups: seq<GroupView<T>>, self: nat) returns (histories: seq<History<T>>, outcome: Outcome)
      modifies counter
      ensures Evaluation(histories, outcome, counter.next)
           == Evaluate(name, disposed, observableCtor, groups, self, old(counter.next))
    {
      if disposed {
        return [], Skipped;
      }
      var visible := VisibleObservables(groups, self);
      match GetObservable(visible) {
        case ErrorValue(early, e) =>
          histories := TrackAll(UnflushedAll(early));
          outcome := Reported(e);
        case Raises(early, e) =>
          var dropped := TrackAll(UnflushedAll(early));
          histories, outcome := [], Caught(e);
        case Pipeline(early, root, subs) =>
          var pre := TrackAll(AtClockStart(early));
          var r := Track(root, name, ClockStart);
          var rest := TrackAll(subs);
          histories, outcome := rest + [r] + pre, Ran;
      }
    }
  }

  /** The ids of a run's histories, in creation order: the root's first, then each later subscription's. */
  function RunIds<T>(histories: seq<History<T>>): seq<nat>
  {
    if histories == [] then [] else RunIds(histories[1..]) + Ids(histories[0])
  }

  /**
   * Containment: a disposed group yields no histories without evaluating
   * and consumes no id. A definition that returns an `{error}` value yields
   * exactly the histories of the streams it tracked while it ran, the most
   * recent first, each started at the clock's start and holding only what
   * the stream delivered on subscription; one that throws yields no
   * histories at all. When every stream tracked while the definition ran
   * delivers nothing on subscription, neither consumes an id and every
   * returned history is empty and open.
   */
  lemma Containment<T>(name: string, disposed: bool, def: Definition<T>,
                       groups: seq<GroupView<T>>, self: nat, id: nat)
    ensures var e := Evaluate(name, disposed, def, groups, self, id);
      && (disposed ==> e == Evaluation([], Skipped, id))
      && (!disposed ==>
            var b := Construct(def, Visible(groups, self));
            && (b.ErrorValue? ==>
                  && e.outcome == Reported(b.error)
                  && |e.histories| == |b.early|
                  && forall n :: 0 <= n < |b.early| ==>
                       TrackedAs(e.histories[n], Unflushed(b.early[|b.early| - 1 - n])))
            && (b.Raises? ==> e.outcome == Caught(b.error) && e.histories == [])
            && (!b.Pipeline? && (forall i :: 0 <= i < |b.early| ==> b.early[i].source.sync == 0 && !b.early[i].source.endsSync) ==>
                  && e.nextId == id
                  && forall n :: 0 <= n < |e.histories| ==> e.histories[n].events == [] && e.histories[n].endTime == None))
  {
    if !disposed {
      var b := Construct(def, Visible(groups, self));
      var e := Evaluate(name, disposed, def, groups, self, id);
      if b.ErrorValue? {
        assert e == Evaluation(RecordUnflushed(b.early, id).histories, Reported(b.error), RecordUnflushed(b.early, id).nextId);
        UnflushedRun(b.early, id);
      } else if b.Raises? {
        assert e == Evaluation([], Caught(b.error), RecordUnflushed(b.early, id).nextId);
        UnflushedRun(b.early, id);
      }
    }
  }

  /** What the streams tracked during construction record when no flush follows. */
  lemma UnflushedRun<T>(early: seq<Subscription<T>>, id: nat)
    ensures var r := RecordUnflushed(early, id);
      && |r.histories| == |early|
      && (forall n :: 0 <= n < |early| ==> TrackedAs(r.histories[n], Unflushed(early[|early| - 1 - n])))
      && ((forall i :: 0 <= i < |early| ==> early[i].source.sync == 0 && !early[i].source.endsSync) ==>
            && r.nextId == id
            && forall n :: 0 <= n < |r.histories| ==> r.histories[n].events == [] && r.histories[n].endTime == None)
  {
    UnflushedTracked(early, id);
    if forall i :: 0 <= i < |early| ==> early[i].source.sync == 0 && !early[i].source.endsSync {
      SilentUnflushed(early, id);
    }
  }

  /**
   * No flush: each history an `{error}` run returns holds no more events
   * than its stream delivered on subscription, and has an end only when the
   * stream completed on subscription or reached the cap then; as the clock
   * never moves, every event in it, nested ones included, and its end lie
   * at the clock's start.
   */
  lemma ReportedHistoriesAreSynchronous<T>(name: string, def: Definition<T>,
                                           groups: seq<GroupView<T>>, self: nat, id: nat)
    requires Construct(def, Visible(groups, self)).ErrorValue?
    ensures var early := Construct(def, Visible(groups, self)).early;
      var e := Evaluate(name, false, def, groups, self, id);
      |e.histories| == |early|
      && forall n :: 0 <= n < |early| ==>
           var src := early[|early| - 1 - n].source;
           && |e.histories[n].events| <= src.sync
           && (e.histories[n].endTime.Some? ==> (EndsOnSubscription(src) && src.ending.Completes?) || Cap <= src.sync)
           && (WellTimed(src, ClockStart) ==> StampedAt(e.histories[n], ClockStart))
  {
    var early := Construct(def, Visible(groups, self)).early;
    var r := RecordUnflushed(early, id);
    assert Evaluate(name, false, def, groups, self, id).histories == r.histories;
    forall n | 0 <= n < |early|
      ensures var src := early[|early| - 1 - n].source;
        && |r.histories[n].events| <= src.sync
        && (r.histories[n].endTime.Some? ==> (EndsOnSubscription(src) && src.ending.Completes?) || Cap <= src.sync)
        && (WellTimed(src, ClockStart) ==> StampedAt(r.histories[n], ClockStart))
    {
      UnflushedBounds(early, id, n);
    }
  }

  lemma UnflushedBounds<T>(early: seq<Subscription<T>>, id: nat, n: nat)
    requires n < |early|
    ensures var src := early[|early| - 1 - n].source;
      var h := RecordUnflushed(early, id).histories[n];
      && |h.events| <= src.sync
      && (h.endTime.Some? ==> (EndsOnSubscription(src) && src.ending.Completes?) || Cap <= src.sync)
      && (WellTimed(src, ClockStart) ==> StampedAt(h, ClockStart))
  {
    var subs := UnflushedAll(early);
    var s := early[|early| - 1 - n];
    HarvestRecords(subs, |early|, id);
    RecordSynchronous(s.source, NameOf(s.name), ClockStart, HarvestIdAt(subs, |early|, n, id));
    if WellTimed(s.source, ClockStart) {
      RecordSynchronousAt(s.source, NameOf(s.name), ClockStart, HarvestIdAt(subs, |early|, n, id));
    }
  }

  /** Streams that deliver nothing on subscription, with no flush after them, record empty, open histories and consume no id. */
  lemma SilentUnflushed<T>(early: seq<Subscription<T>>, id: nat)
    requires forall i :: 0 <= i < |early| ==> early[i].source.sync == 0 && !early[i].source.endsSync
    ensures RecordUnflushed(early, id).nextId == id
    ensures forall n :: 0 <= n < |early| ==>
      RecordUnflushed(early, id).histories[n].events == [] && RecordUnflushed(early, id).histories[n].endTime == None
  {
    var subs := UnflushedAll(early);
    forall i | 0 <= i < |subs|
      ensures subs[i].source.emissions == [] && subs[i].source.ending == Continues
    {
      assert subs[i].source == Synchronous(early[i].source);
    }
    SilentHarvest(subs, |subs|, id);
  }

  /** Streams that deliver nothing record empty, open histories and consume no id. */
  lemma {:induction false} SilentHarvest<T>(subs: seq<Subscription<T>>, k: nat, id: nat)
    requires k <= |subs|
    requires forall i :: 0 <= i < k ==> subs[i].source.emissions == [] && subs[i].source.ending == Continues
    ensures RecordSubscriptions(subs, k, id).nextId == id
    ensures forall n :: 0 <= n < k ==>
      RecordSubscriptions(subs, k, id).histories[n] == History(NameOf(subs[k - 1 - n].name), subs[k - 1 - n].at, None, [])
  {
    if k > 0 {
      var prior := RecordSubscriptions(subs, k - 1, id);
      var r := RecordSubscriptions(subs, k, id);
      SilentHarvest(subs, k - 1, id);
      var t := subs[k - 1].source;
      assert Taken(t) == 0;
      assert RecordUpTo(t, 0, prior.nextId) == Progress([], prior.nextId);
      forall n | 1 <= n < k
        ensures r.histories[n] == prior.histories[n - 1]
      {
      }
    }
  }

  /**
   * Lookup error: when the first dependency the definition reads is not
   * provided by any group before this one (it sits at or after this group,
   * has no resulting history, or does not exist), the run fails with the
   * error naming it and yields no histories.
   */
  lemma MissingDependencyFails<T>(name: string, def: Definition<T>,
                                  groups: seq<GroupView<T>>, self: nat, id: nat, i: nat)
    requires i < |def.deps|
    requires !exists j: nat :: Upstream(groups, j, self) && Provides(groups, j, def.deps[i])
    requires forall k :: 0 <= k < i ==> exists j: nat :: Upstream(groups, j, self) && Provides(groups, j, def.deps[k])
    ensures Evaluate(name, false, def, groups, self, id) == Evaluation([], Caught(MissingMessage(def.deps[i])), id)
  {
    var visible := Visible(groups, self);
    VisibleKeys(groups, self, def.deps[i]);
    forall k | 0 <= k < i
      ensures def.deps[k] in visible
    {
      VisibleKeys(groups, self, def.deps[k]);
    }
    var r := ResolveAll(def.deps, visible);
    assert r.Failure?;
    var m :| 0 <= m < |def.deps| && def.deps[m] !in visible && r.error == MissingMessage(def.deps[m])
             && forall j :: 0 <= j < m ==> def.deps[j] in visible;
    assert m == i;
  }

  lemma {:induction false} HarvestIds<T>(subs: seq<Subscription<T>>, k: nat, id: nat)
    requires k <= |subs|
    ensures |RecordSubscriptions(subs, k, id).histories| == k
    ensures RunIds(RecordSubscriptions(subs, k, id).histories) == Range(id, RecordSubscriptions(subs, k, id).nextId)
  {
    if k > 0 {
      var prior := RecordSubscriptions(subs, k - 1, id);
      var s := subs[k - 1];
      var rec := Record(s.source, NameOf(s.name), s.at, prior.nextId);
      var r := RecordSubscriptions(subs, k, id);
      HarvestIds(subs, k - 1, id);
      assert r.histories[1..] == prior.histories;
      RecordIds(s.source, NameOf(s.name), s.at, prior.nextId);
      RangeSplit(id, prior.nextId, rec.nextId);
    }
  }

  /** The counter value at which the `n`-th history of a harvest of `k` subscriptions was started. */
  function HarvestIdAt<T>(subs: seq<Subscription<T>>, k: nat, n: nat, id: nat): nat
    requires n < k <= |subs|
  {
    RecordSubscriptions(subs, k - 1 - n, id).nextId
  }

  lemma {:induction false} HarvestRecords<T>(subs: seq<Subscription<T>>, k: nat, id: nat)
    requires k <= |subs|
    ensures |RecordSubscriptions(subs, k, id).histories| == k
    ensures forall n :: 0 <= n < k ==>
      RecordSubscriptions(subs, k, id).histories[n]
        == Record(subs[k - 1 - n].source, NameOf(subs[k - 1 - n].name), subs[k - 1 - n].at,
                  HarvestIdAt(subs, k, n, id)).history
  {
    if k > 0 {
      var prior := RecordSubscriptions(subs, k - 1, id);
      var r := RecordSubscriptions(subs, k, id);
      HarvestRecords(subs, k - 1, id);
      forall n | 1 <= n < k
        ensures r.histories[n] == prior.histories[n - 1]
      {
      }
    }
  }

  lemma {:induction false} RunIdsConcat<T>(front: seq<History<T>>, back: seq<History<T>>)
    ensures RunIds(front + back) == RunIds(back) + RunIds(front)
    decreases |front|
  {
    if front == [] {
      assert front + back == back;
    } else {
      assert (front + back)[1..] == front[1..] + back;
      RunIdsConcat(front[1..], back);
    }
  }

  /**
   * `h` is what the tracker records for subscription `s`: named by the
   * normalised name, started at the subscription time, within the cap, a
   * timeline when the source is well timed, and the recording of `s`'s source from some
   * counter value.
   */
  ghost predicate TrackedAs<T>(h: History<T>, s: Subscription<T>)
  {
    && h.name == NameOf(s.name)
    && h.startTime == s.at
    && Capped(h, Cap)
    && (WellTimed(s.source, s.at) ==> Chronological(h))
    && exists c: nat :: h == Record(s.source, NameOf(s.name), s.at, c).history
  }

  lemma RecordBasics<T>(t: Trace<T>, name: string, start: Time, id: nat)
    ensures var h := Record(t, name, start, id).history;
      && h.name == name && h.startTime == start && Capped(h, Cap)
      && (WellTimed(t, start) ==> Chronological(h))
  {
    RecordCapped(t, name, start, id);
    if WellTimed(t, start) {
      RecordChronological(t, name, start, id);
    }
  }

  /** Each history of a harvest is what the tracker records for its subscription. */
  lemma HarvestTracked<T>(subs: seq<Subscription<T>>, k: nat, id: nat)
    requires k <= |subs|
    ensures forall n :: 0 <= n < k ==> TrackedAs(RecordSubscriptions(subs, k, id).histories[n], subs[k - 1 - n])
  {
    var r := RecordSubscriptions(subs, k, id);
    HarvestRecords(subs, k, id);
    forall n | 0 <= n < k
      ensures TrackedAs(r.histories[n], subs[k - 1 - n])
    {
      var s := subs[k - 1 - n];
      var c := HarvestIdAt(subs, k, n, id);
      RecordBasics(s.source, NameOf(s.name), s.at, c);
    }
  }

  /** The streams tracked during construction are recorded from the clock's start, the most recent first. */
  lemma EarlyTracked<T>(early: seq<Subscription<T>>, id: nat)
    ensures |RecordEarly(early, id).histories| == |early|
    ensures forall n :: 0 <= n < |early| ==>
      TrackedAs(RecordEarly(early, id).histories[n], early[|early| - 1 - n].(at := ClockStart))
  {
    HarvestTracked(AtClockStart(early), |early|, id);
  }

  /** The streams tracked during construction, with no flush after them, the most recent first. */
  lemma UnflushedTracked<T>(early: seq<Subscription<T>>, id: nat)
    ensures |RecordUnflushed(early, id).histories| == |early|
    ensures forall n :: 0 <= n < |early| ==>
      TrackedAs(RecordUnflushed(early, id).histories[n], Unflushed(early[|early| - 1 - n]))
  {
    HarvestTracked(UnflushedAll(early), |early|, id);
  }

  /**
   * The result list of a run that builds a stream: the root history in the
   * middle, named after the group and started at the clock's start; before
   * it, one history per stream subscribed through the root's pipeline, the
   * most recently subscribed first; after it, likewise one per stream the
   * definition tracked while it ran, each started at the clock's start.
   * Every one is recorded by the same tracker; nested histories are not in
   * the list. Every history respects the cap, and is a timeline when its
   * source is well timed.
   */
  lemma RunHistories<T>(name: string, early: seq<Subscription<T>>, root: Trace<T>,
                        subs: seq<Subscription<T>>, id: nat)
    ensures var e := RunPipeline(name, early, root, subs, id);
      var m := |subs|;
      && e.outcome == Ran
      && |e.histories| == m + 1 + |early|
      && e.histories[m] == Record(root, name, ClockStart, RecordEarly(early, id).nextId).history
      && e.histories[m].name == name
      && e.histories[m].startTime == ClockStart
      && (forall n :: 0 <= n < |e.histories| ==> Capped(e.histories[n], Cap))
      && (WellTimed(root, ClockStart) ==> Chronological(e.histories[m]))
      && (forall n :: 0 <= n < m ==> TrackedAs(e.histories[n], subs[m - 1 - n]))
      && (forall n :: m < n < |e.histories| ==> TrackedAs(e.histories[n], early[|e.histories| - 1 - n].(at := ClockStart)))
  {
    var m := |subs|;
    var hs := RunPipeline(name, early, root, subs, id).histories;
    RunRoot(name, early, root, subs, id);
    RunLate(name, early, root, subs, id);
    RunEarly(name, early, root, subs, id);
    forall n | 0 <= n < |hs|
      ensures Capped(hs[n], Cap)
    {
      if n < m {
        assert TrackedAs(hs[n], subs[m - 1 - n]);
      } else if m < n {
        assert TrackedAs(hs[n], early[|hs| - 1 - n].(at := ClockStart));
      }
    }
  }

  lemma RunRoot<T>(name: string, early: seq<Subscription<T>>, root: Trace<T>,
                   subs: seq<Subscription<T>>, id: nat)
    ensures var hs := RunPipeline(name, early, root, subs, id).histories;
      var h := Record(root, name, ClockStart, RecordEarly(early, id).nextId).history;
      && hs[|subs|] == h
      && h.name == name && h.startTime == ClockStart && Capped(h, Cap)
      && (WellTimed(root, ClockStart) ==> Chronological(h))
  {
    var pre := RecordEarly(early, id);
    var r := Record(root, name, ClockStart, pre.nextId);
    var rest := RecordSubscriptions(subs, |subs|, r.nextId);
    assert RunPipeline(name, early, root, subs, id).histories == rest.histories + [r.history] + pre.histories;
    RecordBasics(root, name, ClockStart, pre.nextId);
  }

  lemma RunLate<T>(name: string, early: seq<Subscription<T>>, root: Trace<T>,
                   subs: seq<Subscription<T>>, id: nat)
    ensures var hs := RunPipeline(name, early, root, subs, id).histories;
      forall n :: 0 <= n < |subs| ==> TrackedAs(hs[n], subs[|subs| - 1 - n])
  {
    var pre := RecordEarly(early, id);
    var r := Record(root, name, ClockStart, pre.nextId);
    var rest := RecordSubscriptions(subs, |subs|, r.nextId);
    var hs := RunPipeline(name, early, root, subs, id).histories;
    assert hs == rest.histories + [r.history] + pre.histories;
    HarvestTracked(subs, |subs|, r.nextId);
    forall n | 0 <= n < |subs|
      ensures hs[n] == rest.histories[n]
    {
    }
  }

  lemma RunEarly<T>(name: string, early: seq<Subscription<T>>, root: Trace<T>,
                    subs: seq<Subscription<T>>, id: nat)
    ensures var hs := RunPipeline(name, early, root, subs, id).histories;
      forall n :: |subs| < n < |hs| ==> TrackedAs(hs[n], early[|hs| - 1 - n].(at := ClockStart))
  {
    var pre := RecordEarly(early, id);
    var r := Record(root, name, ClockStart, pre.nextId);
    var rest := RecordSubscriptions(subs, |subs|, r.nextId);
    var hs := RunPipeline(name, early, root, subs, id).histories;
    assert hs == rest.histories + [r.history] + pre.histories;
    EarlyTracked(early, id);
    forall n | |subs| < n < |hs|
      ensures hs[n] == pre.histories[n - |subs| - 1]
    {
    }
  }

  /**
   * Event ids within a run: all events of all histories of one run, nested
   * ones included, take exactly the consecutive counter values from the
   * counter at the start of the run to its value at the end, in creation
   * order — so no id repeats and creation order is id order.
   */
  lemma RunIdsAreConsecutive<T>(name: string, disposed: bool, def: Definition<T>,
                                groups: seq<GroupView<T>>, self: nat, id: nat)
    ensures var e := Evaluate(name, disposed, def, groups, self, id);
      id <= e.nextId && RunIds(e.histories) == if e.outcome.Caught? then [] else Range(id, e.nextId)
  {
    if !disposed {
      var b := Construct(def, Visible(groups, self));
      if b.Pipeline? {
        RunPipelineIds(name, b.early, b.root, b.tracked, id);
      } else {
        HarvestIds(UnflushedAll(b.early), |b.early|, id);
      }
    }
  }

  lemma RunPipelineIds<T>(name: string, early: seq<Subscription<T>>, root: Trace<T>,
                          subs: seq<Subscription<T>>, id: nat)
    ensures var e := RunPipeline(name, early, root, subs, id);
      RunIds(e.histories) == Range(id, e.nextId)
  {
    var pre := RecordEarly(early, id);
    var r := Record(root, name, ClockStart, pre.nextId);
    var rest := RecordSubscriptions(subs, |subs|, r.nextId);
    HarvestIds(AtClockStart(early), |early|, id);
    HarvestIds(subs, |subs|, r.nextId);
    RecordIds(root, name, ClockStart, pre.nextId);
    RunIdsConcat(rest.histories + [r.history], pre.histories);
    RunIdsConcat(rest.histories, [r.history]);
    assert [r.history][1..] == [];
    RangeSplit(id, pre.nextId, r.nextId);
    RangeSplit(id, r.nextId, rest.nextId);
  }

  /**
   * Event ids across runs: when one run (of any group) starts after another
   * on the shared counter, however many runs came in between, every id of
   * the later run exceeds every id of the earlier one.
   */
  lemma LaterRunsHaveLargerIds<T>(name1: string, disposed1: bool, def1: Definition<T>, self1: nat,
                                  name2: string, disposed2: bool, def2: Definition<T>, self2: nat,
                                  groups1: seq<GroupView<T>>, groups2: seq<GroupView<T>>, id: nat, c: nat)
    requires Evaluate(name1, disposed1, def1, groups1, self1, id).nextId <= c
    ensures var e1 := Evaluate(name1, disposed1, def1, groups1, self1, id);
      var e2 := Evaluate(name2, disposed2, def2, groups2, self2, c);
      forall a, b :: 0 <= a < |RunIds(e1.histories)| && 0 <= b < |RunIds(e2.histories)| ==>
        RunIds(e1.histories)[a] < RunIds(e2.histories)[b]
  {
    RunIdsAreConsecutive(name1, disposed1, def1, groups1, self1, id);
    RunIdsAreConsecutive(name2, disposed2, def2, groups2, self2, c);
  }

  /** `moved` is `hs` with every id moved by `d`. */
  ghost predicate Shifted<T>(moved: seq<History<T>>, hs: seq<History<T>>, d: nat)
  {
    |moved| == |hs| && forall n :: 0 <= n < |hs| ==> moved[n] == Shift(hs[n], d)
  }

  lemma ShiftedConcat<T>(a': seq<History<T>>, a: seq<History<T>>, b': seq<History<T>>, b: seq<History<T>>, d: nat)
    requires Shifted(a', a, d) && Shifted(b', b, d)
    ensures Shifted(a' + b', a + b, d)
  {
  }

  lemma {:induction false} HarvestShift<T>(subs: seq<Subscription<T>>, k: nat, id: nat, d: nat)
    requires k <= |subs|
    ensures var r := RecordSubscriptions(subs, k, id);
      var r' := RecordSubscriptions(subs, k, id + d);
      r'.nextId == r.nextId + d && Shifted(r'.histories, r.histories, d)
  {
    if k > 0 {
      var prior := RecordSubscriptions(subs, k - 1, id);
      var s := subs[k - 1];
      HarvestShift(subs, k - 1, id, d);
      RecordShift(s.source, NameOf(s.name), s.at, prior.nextId, d);
    }
  }

  /**
   * Determinism: re-running a group with the same definition and the same
   * upstream histories gives the same outcome and the same histories, event
   * for event, up to one uniform offset of the ids (the counter's advance
   * between the two runs).
   */
  lemma EvaluateShift<T>(name: string, disposed: bool, def: Definition<T>,
                         groups: seq<GroupView<T>>, self: nat, id: nat, d: nat)
    ensures var e := Evaluate(name, disposed, def, groups, self, id);
      var e' := Evaluate(name, disposed, def, groups, self, id + d);
      && e'.outcome == e.outcome
      && e'.nextId == e.nextId + d
      && |e'.histories| == |e.histories|
      && forall n :: 0 <= n < |e.histories| ==> e'.histories[n] == Shift(e.histories[n], d)
  {
    var e := Evaluate(name, disposed, def, groups, self, id);
    var e' := Evaluate(name, disposed, def, groups, self, id + d);
    if !disposed {
      var b := Construct(def, Visible(groups, self));
      if b.Pipeline? {
        RunPipelineShift(name, b.early, b.root, b.tracked, id, d);
      } else {
        HarvestShift(UnflushedAll(b.early), |b.early|, id, d);
      }
    }
    assert Shifted(e'.histories, e.histories, d);
  }

  lemma RunPipelineShift<T>(name: string, early: seq<Subscription<T>>, root: Trace<T>,
                            subs: seq<Subscription<T>>, id: nat, d: nat)
    ensures var e := RunPipeline(name, early, root, subs, id);
      var e' := RunPipeline(name, early, root, subs, id + d);
      e'.nextId == e.nextId + d && Shifted(e'.histories, e.histories, d)
  {
    var pre := RecordEarly(early, id);
    var pre' := RecordEarly(early, id + d);
    EarlyShift(early, id, d);
    TailShift(name, root, subs, pre.nextId, d);
    ShiftedConcat(Tail(name, root, subs, pre'.nextId).histories, Tail(name, root, subs, pre.nextId).histories,
                  pre'.histories, pre.histories, d);
  }

  lemma TailShift<T>(name: string, root: Trace<T>, subs: seq<Subscription<T>>, c: nat, d: nat)
    ensures Tail(name, root, subs, c + d).nextId == Tail(name, root, subs, c).nextId + d
    ensures Shifted(Tail(name, root, subs, c + d).histories, Tail(name, root, subs, c).histories, d)
  {
    var r := Record(root, name, ClockStart, c);
    RecordShift(root, name, ClockStart, c, d);
    HarvestShift(subs, |subs|, r.nextId, d);
    var rest := RecordSubscriptions(subs, |subs|, r.nextId);
    var rest' := RecordSubscriptions(subs, |subs|, r.nextId + d);
    assert Shifted([Shift(r.history, d)], [r.history], d);
    ShiftedConcat(rest'.histories, rest.histories, [Shift(r.history, d)], [r.history], d);
  }

  lemma EarlyShift<T>(early: seq<Subscription<T>>, id: nat, d: nat)
    ensures RecordEarly(early, id + d).nextId == RecordEarly(early, id).nextId + d
    ensures Shifted(RecordEarly(early, id + d).histories, RecordEarly(early, id).histories, d)
  {
    HarvestShift(AtClockStart(early), |early|, id, d);
  }

  /**
   * A definition that subscribes a tracked stream emitting 1 at frame 5 and
   * completing at frame 7, then returns an `{error}` value: the clock is not
   * flushed, so the run returns that stream's history empty and open, and
   * consumes no id.
   */
  lemma ScheduledStreamBeforeErrorStaysEmpty<T>(v: T, groups: seq<GroupView<T>>, self: nat, id: nat)
    ensures var early := [Subscription(Text("x"), ClockStart, Trace([Emission(5, Value(v))], Completes(7), 0, false))];
      var def := Definition([], (hs: seq<History<T>>) => ErrorValue(early, "boom"));
      Evaluate("g", false, def, groups, self, id) == Evaluation([History("x", ClockStart, None, [])], Reported("boom"), id)
  {
    var early := [Subscription(Text("x"), ClockStart, Trace([Emission(5, Value(v))], Completes(7), 0, false))];
    SilentHarvest(UnflushedAll(early), 1, id);
  }

  /**
   * A group that reads "A" after the group named "A" has been disposed (the
   * registry no longer reports a resulting history for it) fails with the
   * lookup error naming "A" instead of reusing any earlier result.
   */
  lemma DisposedDependencyFails<T>(def: Definition<T>, previous: History<T>, id: nat)
    requires def.deps == ["A"]
    ensures var groups := [GroupView("A", 0.0, None), GroupView("B", 1.0, Some(previous))];
      Evaluate("B", false, def, groups, 1, id) == Evaluation([], Caught(MissingMessage("A")), id)
  {
    var groups := [GroupView("A", 0.0, None), GroupView("B", 1.0, Some(previous))];
    forall j: nat | Upstream(groups, j, 1) && Provides(groups, j, "A")
      ensures false
    {
    }
    MissingDependencyFails("B", def, groups, 1, id, 0);
  }
}
