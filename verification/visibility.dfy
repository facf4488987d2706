/**
 * Which earlier groups a group may read by name. The registry is scanned in
 * position order, the scan stops at the group itself, and every earlier
 * group that has a resulting history is entered under its name, a later
 * entry overwriting an earlier one of the same name.
 */
module Visibility {
  import opened Wrappers
  import opened Histories

  /**
   * What the scan reads of one registered group: its name, its position
   * sort key, and its resulting history if its last run produced one.
   */
  datatype GroupView<T> = GroupView(name: string, positionKey: real, result: Option<History<T>>)

  /**
   * Position order: by sort key, equal keys in registry order (the sort is
   * stable). A strict total order on the registry's indices.
   */
  predicate Precedes<T>(groups: seq<GroupView<T>>, i: nat, j: nat)
    requires i < |groups| && j < |groups|
  {
    groups[i].positionKey < groups[j].positionKey
    || (groups[i].positionKey == groups[j].positionKey && i < j)
  }

  predicate InOrder<T>(groups: seq<GroupView<T>>, order: seq<nat>)
    requires forall k :: 0 <= k < |order| ==> order[k] < |groups|
  {
    forall a, b :: 0 <= a < b < |order| ==> Precedes(groups, order[a], order[b])
  }

  /** Every index of the registry occurs in `order`. */
  ghost predicate AllIndices<T>(groups: seq<GroupView<T>>, order: seq<nat>)
  {
    forall j :: 0 <= j < |groups| ==> j in order
  }

  /** The registry's indices sorted by position: each index exactly once, in position order. */
  function SortByPosition<T>(groups: seq<GroupView<T>>): (order: seq<nat>)
    ensures |order| == |groups|
    ensures forall k :: 0 <= k < |order| ==> order[k] < |groups|
    ensures AllIndices(groups, order)
    ensures InOrder(groups, order)
  {
    SortPrefix(groups, |groups|)
  }

  function SortPrefix<T>(groups: seq<GroupView<T>>, n: nat): (order: seq<nat>)
    requires n <= |groups|
    ensures |order| == n
    ensures forall k :: 0 <= k < |order| ==> order[k] < n
    ensures forall j :: 0 <= j < n ==> j in order
    ensures InOrder(groups, order)
  {
    if n == 0 then [] else Insert(groups, SortPrefix(groups, n - 1), n - 1)
  }

  function Insert<T>(groups: seq<GroupView<T>>, order: seq<nat>, j: nat): (r: seq<nat>)
    requires j < |groups|
    requires forall k :: 0 <= k < |order| ==> order[k] < j
    requires InOrder(groups, order)
    ensures |r| == |order| + 1
    ensures forall k :: 0 <= k < |r| ==> r[k] == j || r[k] in order
    ensures j in r && forall x :: x in order ==> x in r
    ensures InOrder(groups, r)
  {
    if order == [] then [j]
    else if Precedes(groups, j, order[0]) then [j] + order
    else [order[0]] + Insert(groups, order[1..], j)
  }

  /** Index of the first occurrence of `self` in `order`, or `|order|` when it does not occur. */
  function Position(order: seq<nat>, self: nat): (p: nat)
    ensures p <= |order|
    ensures forall k :: 0 <= k < p ==> order[k] != self
    ensures p < |order| ==> order[p] == self
  {
    if order == [] then 0
    else if order[0] == self then 0
    else 1 + Position(order[1..], self)
  }

  lemma PositionIsFirst(order: seq<nat>, self: nat, i: nat)
    requires i <= |order|
    requires forall k :: 0 <= k < i ==> order[k] != self
    requires i < |order| ==> order[i] == self
    ensures Position(order, self) == i
  {
  }

  /** The name→history map built by scanning `order`, later entries overwriting earlier ones. */
  function Collect<T>(groups: seq<GroupView<T>>, order: seq<nat>): map<string, History<T>>
    requires forall k :: 0 <= k < |order| ==> order[k] < |groups|
  {
    if order == [] then map[]
    else
      var m := Collect(groups, order[..|order| - 1]);
      var g := groups[order[|order| - 1]];
      if g.result.Some? then m[g.name := g.result.value] else m
  }

  lemma CollectStep<T>(groups: seq<GroupView<T>>, order: seq<nat>, i: nat)
    requires i < |order| && forall k :: 0 <= k < |order| ==> order[k] < |groups|
    ensures var g := groups[order[i]];
      Collect(groups, order[..i + 1])
        == if g.result.Some? then Collect(groups, order[..i])[g.name := g.result.value] else Collect(groups, order[..i])
  {
    assert order[..i + 1][..i] == order[..i];
  }

  /** The map `visibleObservables` yields for the group at index `self`. */
  function Visible<T>(groups: seq<GroupView<T>>, self: nat): map<string, History<T>>
  {
    Collect(groups, Scanned(groups, self))
  }

  /** The indices the scan passes before it breaks at the group itself, in position order. */
  function Scanned<T>(groups: seq<GroupView<T>>, self: nat): (s: seq<nat>)
    ensures forall k :: 0 <= k < |s| ==> s[k] < |groups|
    ensures InOrder(groups, s)
  {
    var order := SortByPosition(groups);
    order[..Position(order, self)]
  }

  /**
   * The `visibleObservables` scan: sort the registry by position, walk it,
   * stop at the group itself, enter every group that has a resulting history.
   */
  method VisibleObservables<T>(groups: seq<GroupView<T>>, self: nat) returns (visible: map<string, History<T>>)
    ensures visible == Visible(groups, self)
  {
    var order := SortByPosition(groups);
    visible := Walk(groups, order, self);
  }

  /** The walk of the scan over the sorted indices `order`. */
  method Walk<T>(groups: seq<GroupView<T>>, order: seq<nat>, self: nat) returns (visible: map<string, History<T>>)
    requires forall k :: 0 <= k < |order| ==> order[k] < |groups|
    ensures visible == Collect(groups, order[..Position(order, self)])
  {
    visible := map[];
    var i := 0;
    while i < |order|
      invariant i <= |order|
      invariant forall k :: 0 <= k < i ==> order[k] != self
      invariant visible == Collect(groups, order[..i])
    {
      var g := order[i];
      if g == self {
        break;
      }
      CollectStep(groups, order, i);
      if groups[g].result.Some? {
        visible := visible[groups[g].name := groups[g].result.value];
      }
      i := i + 1;
    }
    PositionIsFirst(order, self, i);
  }

  /** The error `get` throws for a name that is not visible. */
  function MissingMessage(name: string): string
  {
    "There is no visible observable with name \"" + name + "\"!"
  }

  /**
   * The `get` accessor of the dependency view: the visible history under
   * `name`, or an error naming it — never an empty or undefined result.
   */
  function Lookup<T>(visible: map<string, History<T>>, name: string): (r: Result<History<T>, string>)
    ensures r.Success? <==> name in visible
    ensures r.Success? ==> r.value == visible[name]
    ensures r.Failure? ==> r.error == MissingMessage(name)
  {
    if name in visible then Success(visible[name]) else Failure(MissingMessage(name))
  }

  /** Group `j` comes before the group at `self` in position order (everything does if `self` is not registered). */
  predicate Upstream<T>(groups: seq<GroupView<T>>, j: nat, self: nat)
  {
    j < |groups| && (self < |groups| ==> Precedes(groups, j, self))
  }

  /** Group `j` has a resulting history and is called `name`. */
  predicate Provides<T>(groups: seq<GroupView<T>>, j: nat, name: string)
  {
    j < |groups| && groups[j].result.Some? && groups[j].name == name
  }

  lemma {:induction false} CollectKeys<T>(groups: seq<GroupView<T>>, order: seq<nat>, name: string)
    requires forall k :: 0 <= k < |order| ==> order[k] < |groups|
    ensures name in Collect(groups, order) <==> exists k :: 0 <= k < |order| && Provides(groups, order[k], name)
    decreases |order|
  {
    if order != [] {
      var init := order[..|order| - 1];
      CollectKeys(groups, init, name);
      if exists k :: 0 <= k < |init| && Provides(groups, init[k], name) {
        var k :| 0 <= k < |init| && Provides(groups, init[k], name);
        assert order[k] == init[k];
      }
      if exists k :: 0 <= k < |order| && Provides(groups, order[k], name) {
        var k :| 0 <= k < |order| && Provides(groups, order[k], name);
        if k < |init| {
          assert init[k] == order[k];
        }
      }
    }
  }

  /** The entry under `name` comes from the last position of `order` that provides `name`. */
  lemma {:induction false} CollectLast<T>(groups: seq<GroupView<T>>, order: seq<nat>, name: string) returns (k: nat)
    requires forall k :: 0 <= k < |order| ==> order[k] < |groups|
    requires name in Collect(groups, order)
    ensures k < |order| && Provides(groups, order[k], name)
    ensures Collect(groups, order)[name] == groups[order[k]].result.value
    ensures forall k' :: k < k' < |order| ==> !Provides(groups, order[k'], name)
    decreases |order|
  {
    var last := |order| - 1;
    var init := order[..last];
    if Provides(groups, order[last], name) {
      k := last;
    } else {
      assert Collect(groups, order)[name] == Collect(groups, init)[name];
      k := CollectLast(groups, init, name);
      assert order[k] == init[k];
      forall k' | k < k' < |order|
        ensures !Provides(groups, order[k'], name)
      {
        if k' < last {
          assert order[k'] == init[k'];
        }
      }
    }
  }

  /** Every index the scan passes is upstream of the group itself. */
  lemma ScannedIsUpstream<T>(groups: seq<GroupView<T>>, self: nat, k: nat)
    requires k < |Scanned(groups, self)|
    ensures Upstream(groups, Scanned(groups, self)[k], self)
  {
    var order := SortByPosition(groups);
    var p := Position(order, self);
    assert Scanned(groups, self)[k] == order[k];
    if self < |groups| {
      assert AllIndices(groups, order);
      assert self in order;
      assert p < |order|;
      assert Precedes(groups, order[k], order[p]);
    }
  }

  /** Every group upstream of the group itself is passed by the scan. */
  lemma UpstreamIsScanned<T>(groups: seq<GroupView<T>>, self: nat, j: nat) returns (k: nat)
    requires Upstream(groups, j, self)
    ensures k < |Scanned(groups, self)| && Scanned(groups, self)[k] == j
  {
    var order := SortByPosition(groups);
    var p := Position(order, self);
    assert AllIndices(groups, order);
    assert j in order;
    k :| 0 <= k < |order| && order[k] == j;
    if self < |groups| {
      assert self in order;
      assert p < |order|;
      if k == p {
        assert false;
      } else if p < k {
        assert false;
      }
    }
  }

  /**
   * Visible before self only, success-gated: a name is visible exactly when
   * some group strictly before the current one in position order carries it
   * and has a resulting history. Neither the group itself nor any later
   * group is ever visible.
   */
  lemma VisibleKeys<T>(groups: seq<GroupView<T>>, self: nat, name: string)
    ensures name in Visible(groups, self) <==> exists j: nat :: Upstream(groups, j, self) && Provides(groups, j, name)
  {
    var scanned := Scanned(groups, self);
    CollectKeys(groups, scanned, name);
    if exists k :: 0 <= k < |scanned| && Provides(groups, scanned[k], name) {
      var k :| 0 <= k < |scanned| && Provides(groups, scanned[k], name);
      ScannedIsUpstream(groups, self, k);
    }
    if exists j: nat :: Upstream(groups, j, self) && Provides(groups, j, name) {
      var j: nat :| Upstream(groups, j, self) && Provides(groups, j, name);
      var k := UpstreamIsScanned(groups, self, j);
    }
  }

  /**
   * Nearest wins: the history visible under a name is that of the group
   * carrying the name that comes last before the current group in position
   * order; every other upstream group of that name precedes it.
   */
  lemma VisibleNearest<T>(groups: seq<GroupView<T>>, self: nat, name: string) returns (j: nat)
    requires name in Visible(groups, self)
    ensures Upstream(groups, j, self) && Provides(groups, j, name)
    ensures Visible(groups, self)[name] == groups[j].result.value
    ensures forall j': nat :: Upstream(groups, j', self) && Provides(groups, j', name) ==> j' == j || Precedes(groups, j', j)
  {
    var scanned := Scanned(groups, self);
    var k := CollectLast(groups, scanned, name);
    j := scanned[k];
    ScannedIsUpstream(groups, self, k);
    forall j': nat | Upstream(groups, j', self) && Provides(groups, j', name)
      ensures j' == j || Precedes(groups, j', j)
    {
      LastProviderIsNearest(groups, self, name, k, j');
    }
  }

  /** An upstream provider of `name` is the scan's last provider at index `k`, or comes before it. */
  lemma LastProviderIsNearest<T>(groups: seq<GroupView<T>>, self: nat, name: string, k: nat, j': nat)
    requires k < |Scanned(groups, self)|
    requires forall k' :: k < k' < |Scanned(groups, self)| ==> !Provides(groups, Scanned(groups, self)[k'], name)
    requires Upstream(groups, j', self) && Provides(groups, j', name)
    ensures j' == Scanned(groups, self)[k] || Precedes(groups, j', Scanned(groups, self)[k])
  {
    var scanned := Scanned(groups, self);
    var k' := UpstreamIsScanned(groups, self, j');
    if k' < k {
      assert Precedes(groups, scanned[k'], scanned[k]);
    }
  }

  /**
   * Lookup error: `get(name)` fails, with the message naming `name`, exactly
   * when no group before the current one that has a resulting history is
   * called `name` — in particular when the only such groups sit at or after it.
   */
  lemma LookupFailsUnlessUpstream<T>(groups: seq<GroupView<T>>, self: nat, name: string)
    ensures Lookup(Visible(groups, self), name).Failure?
        <==> !exists j: nat :: Upstream(groups, j, self) && Provides(groups, j, name)
    ensures Lookup(Visible(groups, self), name).Failure? ==>
        Lookup(Visible(groups, self), name).error == MissingMessage(name)
  {
    VisibleKeys(groups, self, name);
  }
}
