/** Concrete runs of the query object that show the two places where the
    cache behaves differently as written than evidently intended, each beside
    the same run on the corrected cache. */
module Findings {
  import opened Records
  import opened RecordOrder
  import opened RecordSet
  import opened Selection
  import opened Cache

  /** Grouping two records of different priorities puts the first alone in the front group. */
  lemma {:induction false} FrontGroupOfTwo(a: Target, b: Target, gs: seq<Group>)
    requires a.priority != b.priority
    requires IsPriorityGrouping([a, b], gs)
    ensures gs != [] && gs[0] == Group(a.weight, [a]) && Flatten(gs[1..]) == [b]
  {
    assert gs != [];
    var m := gs[0].members;
    assert IsRun(gs[0]);
    var rest := Flatten(gs[1..]);
    assert [a, b] == m + rest;
    assert 1 <= |m| <= 2 && m == [a, b][..|m|] && rest == [a, b][|m|..];
    assert m[|m| - 1].priority == m[0].priority;
    assert m == [a] && gs[0].total == WeightSum([a]) == a.weight;
  }

  lemma SortedSingle(t: Target)
    ensures SortRecords([t]) == [t]
  {
  }

  lemma SortedPair(a: Target, b: Target)
    requires a.priority < b.priority
    ensures SortRecords([a, b]) == [a, b]
  {
    assert [a, b][..1] == [a];
    SortedSingle(a);
  }

  /** A refresh after the TTL expired, while groups from the previous answer
      are still cached (the iterator was not run to the end), appends the new
      groups after the stale ones: the one target of the answer is then
      produced twice by the next iteration. */
  method StaleRefreshDuplicates() returns (first: seq<Target>, second: seq<Target>)
    ensures first == [Target(10, 5, 5222, "a.example.com")]
    ensures second == first + first
  {
    var t := Target(10, 5, 5222, "a.example.com");
    var answer := Answered([t], 60);
    SortedSingle(t);
    var srv := new Srv("xmpp-server", "example.com");
    var r1 := srv.LookupSrvAsWritten(0, answer);
    first := Flatten(srv.groups.items);
    assert srv.groups.items == srv.groups.items[0..];
    var stale := srv.groups.items;
    var r2 := srv.LookupSrvAsWritten(60, answer);
    var items := srv.groups.items;
    assert items == stale + items[|stale|..];
    FlattenAppend(stale, items[|stale|..]);
    second := Flatten(items);
  }

  /** The same two lookups on the corrected cache: the refresh replaces the
      stale groups, and the target is produced once. */
  method RefreshReplaces() returns (first: seq<Target>, second: seq<Target>)
    ensures first == second == [Target(10, 5, 5222, "a.example.com")]
  {
    var t := Target(10, 5, 5222, "a.example.com");
    var answer := Answered([t], 60);
    SortedSingle(t);
    var srv := new Srv("xmpp-server", "example.com");
    var r1 := srv.LookupSrv(0, answer);
    first := Flatten(srv.groups.items);
    var r2 := srv.LookupSrv(60, answer);
    second := Flatten(srv.groups.items);
  }

  /** A fresh query object for `_xmpp-server._tcp.example.com` after one
      lookup at instant 0 of an answer with TTL 60 holding `a` (priority 10)
      and `b` (priority 20), by the cache as written or by the corrected one. */
  method CachedPair(asWritten: bool) returns (srv: Srv, a: Target, b: Target)
    ensures a == Target(10, 5, 5222, "a.example.com") && b == Target(20, 0, 5222, "b.example.com")
    ensures fresh(srv) && fresh(srv.groups) && srv.Valid() && srv.swallowErrors
    ensures srv.expiry == 60 && IsPriorityGrouping([a, b], srv.groups.items)
    ensures srv.groups.items != [] && srv.groups.items[0] == Group(a.weight, [a])
    ensures Flatten(srv.groups.items[1..]) == [b]
  {
    a := Target(10, 5, 5222, "a.example.com");
    b := Target(20, 0, 5222, "b.example.com");
    var answer := Answered([a, b], 60);
    SortedPair(a, b);
    srv := new Srv("xmpp-server", "example.com");
    if asWritten {
      var refreshed := srv.LookupSrvAsWritten(0, answer);
      assert srv.groups.items[0..] == srv.groups.items;
      GroupingOfSortedIsWellFormed([a, b], srv.groups.items);
    } else {
      var refreshed := srv.LookupSrv(0, answer);
    }
    FrontGroupOfTwo(a, b, srv.groups.items);
  }

  /** An iterator that has produced one target has popped the first priority
      group from the very list the cache holds: a lookup within the TTL then
      hits the cache and returns only the second group, so the next iteration
      never produces the first target. */
  method SharedIteratorDrainsCache() returns (cached: seq<Target>, later: seq<Target>)
    ensures cached == [Target(10, 5, 5222, "a.example.com"), Target(20, 0, 5222, "b.example.com")]
    ensures later == [Target(20, 0, 5222, "b.example.com")]
  {
    var srv, a, b := CachedPair(true);
    var answer := Answered([a, b], 60);
    var items := srv.groups.items;
    cached := Flatten(items);
    assert srv.CacheHit(1);
    var iterated := srv.IterAsWritten(1, answer);
    var it := iterated.value;
    assert it.Valid() by {
      assert forall g :: g in it.queue.items ==> IsRun(g);
    }
    assert it.Upcoming() == Group(a.weight, [a]);
    var x := it.Next(1);
    assert srv.groups.items == items[1..] && srv.expiry == 60;
    var again := srv.LookupSrvAsWritten(2, answer);
    later := Flatten(again.value.items);
  }

  /** The same run on the corrected cache: the iterator consumes its own copy,
      and the lookup within the TTL still returns both targets. */
  method IsolatedIteratorKeepsCache() returns (cached: seq<Target>, later: seq<Target>)
    ensures cached == later == [Target(10, 5, 5222, "a.example.com"), Target(20, 0, 5222, "b.example.com")]
  {
    var srv, a, b := CachedPair(false);
    var answer := Answered([a, b], 60);
    var items := srv.groups.items;
    cached := Flatten(items);
    assert srv.CacheHit(1);
    var iterated := srv.Iter(1, answer);
    var it := iterated.value;
    assert it.Upcoming() == Group(a.weight, [a]);
    var x := it.Next(1);
    assert srv.groups.items == items && srv.expiry == 60;
    var again := srv.LookupSrv(2, answer);
    later := Flatten(again.value);
  }
}
