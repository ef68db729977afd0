/** The weighted selection iterator: a queue of priority groups and a current
    group; each step draws one member of the current group by the weight
    algorithm of RFC 2782 (section "The format of the SRV RR", field Weight)
    and removes it. The random draws are parameters. */
module Selection {
  import opened Records
  import opened RecordSet

  /** The bounds of the `randint` call `_choose_server` makes:
      `randint(0, size - 1)` when only zero weight remains, `randint(1, total)`
      otherwise. For a non-empty group the range is never empty. */
  function RandintBounds(total: int, size: nat): (b: (int, int))
    ensures size > 0 ==> b.0 <= b.1
  {
    if size > 0 && total <= 0 then (0, size - 1) else (1, total)
  }

  /** The values that `randint` call can return. */
  predicate RandintRange(total: int, size: nat, draw: int)
  {
    RandintBounds(total, size).0 <= draw <= RandintBounds(total, size).1
  }

  /** The first member whose running weight sum reaches `r`. */
  function FirstCovering(ms: seq<Target>, r: int): (k: nat)
    requires 1 <= r <= WeightSum(ms)
    ensures k < |ms|
    ensures ms[k].weight > 0
    decreases |ms|
  {
    if r <= ms[0].weight then 0 else 1 + FirstCovering(ms[1..], r - ms[0].weight)
  }

  /** The running weight sum reaches `r` at `FirstCovering(ms, r)` and at no earlier member. */
  lemma {:induction false} FirstCoveringIsFirst(ms: seq<Target>, r: int)
    requires 1 <= r <= WeightSum(ms)
    ensures WeightSum(ms[..FirstCovering(ms, r) + 1]) >= r
    ensures forall j :: 0 <= j <= FirstCovering(ms, r) ==> WeightSum(ms[..j]) < r
  {
    var k := FirstCovering(ms, r);
    assert ms[..1][1..] == [];
    if r > ms[0].weight {
      var rest := ms[1..];
      FirstCoveringIsFirst(rest, r - ms[0].weight);
      assert ms[..k + 1][1..] == rest[..k];
      forall j | 1 <= j <= k ensures WeightSum(ms[..j]) < r {
        assert ms[..j][1..] == rest[..j - 1];
      }
    }
  }

  /** The draw leads to a member: the group is non-empty, and a weighted draw
      does not exceed the sum of the weights. */
  predicate Drawable(total: int, ms: seq<Target>, draw: int)
  {
    ms != [] && (if total <= 0 then 0 <= draw < |ms| else 1 <= draw <= WeightSum(ms))
  }

  /** The index `_choose_server` picks: the draw itself when no weight remains,
      otherwise the first member whose running weight sum reaches the draw. */
  function PickIndex(total: int, ms: seq<Target>, draw: int): (k: nat)
    requires Drawable(total, ms, draw)
    ensures k < |ms|
    ensures total > 0 ==> ms[k].weight > 0
  {
    if total <= 0 then draw else FirstCovering(ms, draw)
  }

  /** RFC 2782: a zero-weight target is never picked while a target of
      positive weight remains in its group, and once the weight left is zero
      the draw is uniform over what remains because every member left has weight zero. */
  lemma {:induction false} ZeroWeightDeferred(total: int, ms: seq<Target>, draw: int)
    requires total == WeightSum(ms)
    requires ms != [] && RandintRange(total, |ms|, draw)
    ensures Drawable(total, ms, draw)
    ensures (exists i :: 0 <= i < |ms| && ms[i].weight > 0) ==> ms[PickIndex(total, ms, draw)].weight > 0
    ensures total <= 0 ==> PickIndex(total, ms, draw) == draw && forall i :: 0 <= i < |ms| ==> ms[i].weight == 0
  {
    if total <= 0 {
      NoWeightMeansAllZero(ms);
    }
  }

  /** The Python list object holding the queue of priority groups. */
  class GroupQueue {
    var items: seq<Group>

    constructor (items: seq<Group>)
      ensures this.items == items
    {
      this.items := items;
    }
  }

  class SrvIter {
    const queue: GroupQueue
    var current: Group

    /** The iterator starts with no current group, `(0, [])`. */
    constructor (queue: GroupQueue)
      ensures this.queue == queue && current == Group(0, [])
    {
      this.queue := queue;
      current := Group(0, []);
    }

    /** Each group's total is the sum of its remaining weights, and every
        queued group has members. */
    ghost predicate Valid()
      reads this, queue
    {
      && current.total == WeightSum(current.members)
      && forall g :: g in queue.items ==> g.members != [] && g.total == WeightSum(g.members)
    }

    /** Every target the iterator has yet to produce, in stored order. */
    ghost function Remaining(): seq<Target>
      reads this, queue
    {
      current.members + Flatten(queue.items)
    }

    /** Each group has one priority, and the targets left ascend by priority. */
    ghost predicate Ordered()
      reads this, queue
    {
      && Uniform(current.members)
      && (forall g :: g in queue.items ==> Uniform(g.members))
      && PrioritySorted(Remaining())
    }

    /** The group the next step draws from: the current one, or the front of
        the queue when the current one is used up. */
    function Upcoming(): Group
      reads this, queue
    {
      if current.members == [] && queue.items != [] then queue.items[0] else current
    }

    /** The queue after the next step's possible pop. */
    ghost function QueueAfterAdvance(): seq<Group>
      reads this, queue
    {
      if current.members == [] && queue.items != [] then queue.items[1..] else queue.items
    }

    /** The bounds of the `randint` call the next step makes. */
    function DrawBounds(): (b: (int, int))
      reads this, queue
      ensures Upcoming().members != [] ==> b.0 <= b.1
    {
      RandintBounds(Upcoming().total, |Upcoming().members|)
    }

    /** `_choose_server`: picks a member of the group with the drawn value,
        pops it and lowers the total by its weight. Returns nothing (the
        "probably a bug" path) exactly when the draw overshoots the weights
        present, which cannot happen when the total is the sum of the weights. */
    static method ChooseServer(total: int, members: seq<Target>, draw: int) returns (r: Option<(Target, Group)>)
      requires RandintRange(total, |members|, draw)
      ensures r.Some? <==> Drawable(total, members, draw)
      ensures members != [] && total == WeightSum(members) ==> r.Some?
      ensures r.Some? ==>
        var k := PickIndex(total, members, draw);
        r.value == (members[k], Group(total - members[k].weight, RemoveAt(members, k)))
    {
      var size := |members|;
      var choice: Option<nat> := None;
      if size > 0 && total <= 0 {
        assert 0 <= draw < size;
        choice := Some(draw);
      } else {
        assert 1 <= draw;
        var sum := 0;
        var i := 0;
        while i < size
          invariant 0 <= i <= size
          invariant sum == WeightSum(members[..i])
          invariant forall j :: 0 <= j <= i ==> WeightSum(members[..j]) < draw
        {
          PrefixSumStep(members, i);
          sum := sum + members[i].weight;
          if sum >= draw {
            PrefixSumBounded(members, i + 1);
            FirstCoveringIsFirst(members, draw);
            choice := Some(i);
            break;
          }
          i := i + 1;
        }
        if choice.None? {
          assert members[..size] == members;
        }
      }
      if choice.Some? {
        var k := choice.value;
        var chosen := members[k];
        r := Some((chosen, Group(total - chosen.weight, members[..k] + members[k + 1..])));
      } else {
        r := None;
      }
    }

    /** `next`: when the current group is used up and groups remain, the front
        group is popped from the queue and becomes current; when the current
        group is still empty the sequence ends. Otherwise `_choose_server`
        picks, pops and returns a member. */
    method Next(draw: int) returns (r: Option<Target>)
      requires Valid()
      requires Upcoming().members != [] ==> RandintRange(Upcoming().total, |Upcoming().members|, draw)
      modifies this, queue
      ensures Valid()
      ensures queue.items == old(QueueAfterAdvance())
      ensures r.None? <==> old(Remaining()) == []
      ensures r.None? ==> current == old(current) && Remaining() == []
      ensures r.Some? ==>
        var g := old(Upcoming());
        Drawable(g.total, g.members, draw) &&
        (var k := PickIndex(g.total, g.members, draw);
         && r.value == g.members[k] == old(Remaining())[k]
         && current == Group(g.total - g.members[k].weight, RemoveAt(g.members, k))
         && Remaining() == RemoveAt(old(Remaining()), k))
      ensures r.Some? && old(Ordered()) ==>
        && Ordered()
        && forall j :: 0 <= j < |Remaining()| ==> r.value.priority <= Remaining()[j].priority
    {
      ghost var g, rest := Upcoming(), Flatten(QueueAfterAdvance());
      assert g.members + rest == Remaining();
      var size := |queue.items|;
      if current.members == [] && size > 0 {
        current := queue.items[0];
        queue.items := queue.items[1..];
      }
      assert current == g && Flatten(queue.items) == rest;
      if |current.members| <= 0 {
        return None;
      }
      var choice := ChooseServer(current.total, current.members, draw);
      if choice.None? {
        // `_choose_server` would raise StopIteration: the total always equals the sum of the weights
        assert false;
      }
      var chosen := choice.value.0;
      current := choice.value.1;
      r := Some(chosen);
      ghost var k := PickIndex(g.total, g.members, draw);
      WeightSumRemoveAt(g.members, k);
      RemoveAtAppend(g.members, rest, k);
      if old(Ordered()) {
        RemovalKeepsOrder(g.members, rest, k);
      }
    }
  }

  /** An iterator started on a well-formed group list (as the cache holds)
      has every total equal to its weight sum, and produces the targets of the
      list in priority order. */
  lemma FreshIteratorOrdered(it: SrvIter)
    requires it.current == Group(0, []) && WellFormedGroups(it.queue.items)
    ensures it.Valid() && it.Ordered()
    ensures it.Remaining() == Flatten(it.queue.items)
  {
    WellFormedFlattenSorted(it.queue.items);
    assert forall g :: g in it.queue.items ==> IsRun(g);
    assert it.Remaining() == Flatten(it.queue.items);
  }

  /** Popping a member from the group at the front keeps the group at one
      priority and the remaining targets in priority order, and the member
      popped has a priority no greater than any target left. */
  lemma {:induction false} RemovalKeepsOrder(ms: seq<Target>, rest: seq<Target>, k: nat)
    requires k < |ms| && Uniform(ms) && PrioritySorted(ms + rest)
    ensures Uniform(RemoveAt(ms, k))
    ensures PrioritySorted(RemoveAt(ms, k) + rest)
    ensures forall j :: 0 <= j < |RemoveAt(ms, k) + rest| ==> ms[k].priority <= (RemoveAt(ms, k) + rest)[j].priority
  {
    var s, s' := ms + rest, RemoveAt(ms, k) + rest;
    assert s' == RemoveAt(s, k);
    forall j | 0 <= j < |s'| ensures ms[k].priority <= s'[j].priority {
      if j < |ms| - 1 {
        assert s'[j] == RemoveAt(ms, k)[j];
        assert s'[j] == ms[j] || s'[j] == ms[j + 1];
        assert s'[j].priority == ms[0].priority == ms[k].priority;
      } else {
        assert s'[j] == s[j + 1] && s[k] == ms[k];
      }
    }
  }

  /** The output of a drain so far: in priority order, and no target in it
      of a priority above a target still left. */
  predicate DrainedBefore(out: seq<Target>, rest: seq<Target>)
  {
    && PrioritySorted(out)
    && forall i, j :: 0 <= i < |out| && 0 <= j < |rest| ==> out[i].priority <= rest[j].priority
  }

  /** One step of draining: appending the target just produced keeps the
      output in priority order, below every target left, and keeps output and
      targets left together equal to the targets at the start. */
  lemma {:induction false} DrainStep(out: seq<Target>, before: seq<Target>, k: nat, after: seq<Target>)
    requires k < |before| && after == RemoveAt(before, k)
    requires DrainedBefore(out, before)
    requires forall j :: 0 <= j < |after| ==> before[k].priority <= after[j].priority
    ensures DrainedBefore(out + [before[k]], after)
    ensures multiset(out + [before[k]]) + multiset(after) == multiset(out) + multiset(before)
  {
    RemoveAtMultiset(before, k);
    var out' := out + [before[k]];
    forall i, j | 0 <= i < |out'| && 0 <= j < |after| ensures out'[i].priority <= after[j].priority {
      if i < |out| {
        assert after[j] == before[j] || after[j] == before[j + 1];
      }
    }
  }

  /** Iterating to exhaustion (the `for` loop over the query object), with
      `rng(step, lo, hi)` standing for the `step`-th call `randint(lo, hi)`:
      every target left is produced exactly once, in non-decreasing priority. */
  method Drain(it: SrvIter, rng: (nat, int, int) -> int) returns (out: seq<Target>)
    requires it.Valid() && it.Ordered()
    requires forall step: nat, lo, hi :: lo <= hi ==> lo <= rng(step, lo, hi) <= hi
    modifies it, it.queue
    ensures it.Remaining() == []
    ensures multiset(out) == multiset(old(it.Remaining()))
    ensures PrioritySorted(out)
  {
    out := [];
    var step: nat := 0;
    ghost var start := it.Remaining();
    ghost var rest := start;
    while true
      invariant it.Valid() && it.Ordered() && rest == it.Remaining()
      invariant multiset(out) + multiset(rest) == multiset(start)
      invariant DrainedBefore(out, rest)
      decreases |rest|
    {
      var bounds := it.DrawBounds();
      var draw := rng(step, bounds.0, bounds.1);
      ghost var g := it.Upcoming();
      var r := it.Next(draw);
      if r.None? {
        break;
      }
      ghost var k := PickIndex(g.total, g.members, draw);
      ghost var after := it.Remaining();
      DrainStep(out, rest, k, after);
      out := out + [r.value];
      rest := after;
      step := step + 1;
    }
  }
}
