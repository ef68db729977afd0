/** The record-set builder: the query name, the trust check on a resolver
    answer, and the grouping of the sorted records by priority into
    `(total_weight, members)` groups. */
module RecordSet {
  import opened Records
  import opened RecordOrder

  /** The DNS name queried for SRV records: `_service._protocol.domain`. */
  function QueryName(service: string, protocol: string, domain: string): string
  {
    "_" + service + "._" + protocol + "." + domain
  }

  /** Where each part of the query name sits. */
  lemma QueryNameLayout(service: string, protocol: string, domain: string)
    ensures var q := QueryName(service, protocol, domain);
      && |q| == |service| + |protocol| + |domain| + 4
      && q[0] == '_'
      && q[1..1 + |service|] == service
      && q[1 + |service|] == '.' && q[2 + |service|] == '_'
      && q[3 + |service|..3 + |service| + |protocol|] == protocol
      && q[3 + |service| + |protocol|] == '.'
      && q[4 + |service| + |protocol|..] == domain
  {
  }

  /** Services and protocols are single DNS labels (they hold no dot), so the
      query name determines the service, the protocol and the domain: two query
      objects for different services never share a cache key in DNS. */
  lemma {:induction false} QueryNameInjective(s1: string, p1: string, d1: string, s2: string, p2: string, d2: string)
    requires '.' !in s1 && '.' !in s2 && '.' !in p1 && '.' !in p2
    requires QueryName(s1, p1, d1) == QueryName(s2, p2, d2)
    ensures s1 == s2 && p1 == p2 && d1 == d2
  {
    QueryNameLayout(s1, p1, d1);
    QueryNameLayout(s2, p2, d2);
  }

  /** The trust check passes: no pattern is configured, or every target name matches it. */
  predicate AllTrusted(trusted: Option<string -> bool>, records: seq<Target>)
  {
    trusted.None? || forall t :: t in records ==> trusted.value(t.name)
  }

  /** The loop over the sorted records that flags an untrusted target name;
      it looks at every record and does not stop at the first bad one. */
  method CheckTrust(records: seq<Target>, matches: string -> bool) returns (foundBad: bool)
    ensures foundBad <==> exists t :: t in records && !matches(t.name)
  {
    foundBad := false;
    for i := 0 to |records|
      invariant foundBad <==> exists j :: 0 <= j < i && !matches(records[j].name)
    {
      if !matches(records[i].name) {
        foundBad := true;
      }
    }
    assert forall t :: t in records ==> exists j :: 0 <= j < |records| && records[j] == t;
  }

  /** One group as `groupby` yields it: non-empty, one priority, and its total
      is the sum of its members' weights. */
  predicate IsRun(g: Group)
  {
    g.members != [] && Uniform(g.members) && g.total == WeightSum(g.members)
  }

  /** `gs` is what grouping `records` by priority yields: the maximal runs of
      equal priority, in order, each with its weight sum. */
  predicate IsPriorityGrouping(records: seq<Target>, gs: seq<Group>)
  {
    && Flatten(gs) == records
    && (forall g :: g in gs ==> IsRun(g))
    && (forall k :: 0 < k < |gs| ==> GroupPriority(gs[k - 1]) != GroupPriority(gs[k]))
  }

  /** Members ascend by weight, then by name. */
  predicate WeightNameOrdered(ms: seq<Target>)
  {
    forall i, j :: 0 <= i < j < |ms| ==>
      ms[i].weight < ms[j].weight || (ms[i].weight == ms[j].weight && NameLe(ms[i].name, ms[j].name))
  }

  /** The shape of the cached group list: one group per priority, priorities
      strictly ascending, each total the sum of its weights, members ordered by
      weight and name. */
  predicate WellFormedGroups(gs: seq<Group>)
  {
    && (forall g :: g in gs ==> IsRun(g) && WeightNameOrdered(g.members))
    && (forall i, j :: 0 <= i < j < |gs| ==> GroupPriority(gs[i]) < GroupPriority(gs[j]))
  }

  /** One group of `groupby`: from position `i`, the comprehension collects
      the run of records sharing `records[i]`'s priority into `tmp` and sums
      their weights. */
  method CollectRun(records: seq<Target>, i: nat) returns (g: Group, j: nat)
    requires i < |records|
    ensures i < j <= |records| && g.members == records[i..j]
    ensures IsRun(g) && GroupPriority(g) == records[i].priority
    ensures j < |records| ==> records[j].priority != records[i].priority
  {
    var priority := records[i].priority;
    var tmp: seq<Target> := [];
    var total := 0;
    j := i;
    while j < |records| && records[j].priority == priority
      invariant i <= j <= |records|
      invariant tmp == records[i..j]
      invariant total == WeightSum(tmp)
      invariant forall k :: 0 <= k < |tmp| ==> tmp[k].priority == priority
    {
      WeightSumAppend(tmp, [records[j]]);
      tmp := tmp + [records[j]];
      total := total + records[j].weight;
      j := j + 1;
    }
    g := Group(total, tmp);
  }

  /** The `groupby(records, key=priority)` loop: it appends one group per run
      of equal priority. */
  method GroupByPriority(records: seq<Target>) returns (groups: seq<Group>)
    ensures IsPriorityGrouping(records, groups)
  {
    groups := [];
    var i := 0;
    while i < |records|
      invariant 0 <= i <= |records|
      invariant Flatten(groups) == records[..i]
      invariant forall g :: g in groups ==> IsRun(g)
      invariant forall k :: 0 < k < |groups| ==> GroupPriority(groups[k - 1]) != GroupPriority(groups[k])
      invariant groups != [] && i < |records| ==> GroupPriority(groups[|groups| - 1]) != records[i].priority
    {
      var g, j := CollectRun(records, i);
      FlattenAppend(groups, [g]);
      assert Flatten([g]) == g.members;
      assert records[..j] == records[..i] + records[i..j];
      groups := groups + [g];
      i := j;
    }
    assert records[..i] == records;
  }

  /** Grouping records sorted by `(priority, weight, name)` gives a well-formed
      group list: priorities strictly ascending across groups, and within a
      group the members ordered by weight and then name. */
  lemma {:induction false} GroupingOfSortedIsWellFormed(records: seq<Target>, gs: seq<Group>)
    requires SortedByKey(records)
    requires IsPriorityGrouping(records, gs)
    ensures WellFormedGroups(gs)
  {
    if gs != [] {
      var a, rest := gs[0].members, gs[1..];
      var tail := Flatten(rest);
      assert records == a + tail;
      assert a == records[..|a|] && tail == records[|a|..];
      assert forall k :: 0 < k < |rest| ==> rest[k - 1] == gs[k] && rest[k] == gs[k + 1];
      GroupingOfSortedIsWellFormed(tail, rest);
      assert IsRun(gs[0]);
      assert WeightNameOrdered(a) by {
        forall i, j | 0 <= i < j < |a|
          ensures a[i].weight < a[j].weight || (a[i].weight == a[j].weight && NameLe(a[i].name, a[j].name))
        {
          assert KeyLe(records[i], records[j]);
        }
      }
      if rest != [] {
        assert rest[0].members != [];
        assert tail[0] == rest[0].members[0];
        assert KeyLe(records[0], records[|a|]);
        assert GroupPriority(gs[0]) < GroupPriority(gs[1]);
        forall i, j | 0 <= i < j < |gs| ensures GroupPriority(gs[i]) < GroupPriority(gs[j]) {
          if i == 0 && j > 1 {
            assert GroupPriority(rest[0]) < GroupPriority(rest[j - 1]);
          } else if i > 0 {
            assert GroupPriority(rest[i - 1]) < GroupPriority(rest[j - 1]);
          }
        }
      }
    }
  }

  /** Reading a well-formed group list front to back meets the priorities in
      non-decreasing order, none below that of the first group. */
  lemma {:induction false} WellFormedFlattenSorted(gs: seq<Group>)
    requires WellFormedGroups(gs)
    ensures PrioritySorted(Flatten(gs))
    ensures gs != [] ==> forall t :: t in Flatten(gs) ==> GroupPriority(gs[0]) <= t.priority
  {
    if gs != [] {
      var a, rest := gs[0].members, gs[1..];
      var tail := Flatten(rest);
      assert forall i, j :: 0 <= i < j < |rest| ==> rest[i] == gs[i + 1] && rest[j] == gs[j + 1];
      WellFormedFlattenSorted(rest);
      assert IsRun(gs[0]);
      var p := GroupPriority(gs[0]);
      assert forall i :: 0 <= i < |a| ==> a[i].priority == p;
      assert forall t :: t in tail ==> p < t.priority by {
        if rest != [] {
          assert GroupPriority(gs[0]) < GroupPriority(gs[1]);
        }
      }
      var s := a + tail;
      forall i, j | 0 <= i < j < |s| ensures s[i].priority <= s[j].priority {
        if j >= |a| {
          assert s[j] == tail[j - |a|];
          if i >= |a| {
            assert s[i] == tail[i - |a|];
          }
        }
      }
    }
  }
}
