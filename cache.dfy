/** The SRV query object: the query name, the configuration, and the TTL
    cache of priority groups, refreshed from a resolver answer when it has
    expired or is empty. The resolver is not called: its answer (records and
    TTL, or an error) is a parameter, and time is a number of seconds since the
    earliest representable instant. */
module Cache {
  import opened Records
  import opened RecordOrder
  import opened RecordSet
  import opened Selection

  class Srv {
    const service: string
    /** The trust pattern's `match`, when one is configured. */
    const trusted: Option<string -> bool>
    const swallowErrors: bool
    /** The instant the cached groups expire (`self.ttl`). */
    var expiry: nat
    /** The cached group list (`self.groups`), one list object for the query object's life. */
    const groups: GroupQueue

    /** The cache always holds a well-formed group list (possibly empty). */
    ghost predicate Valid()
      reads this, groups
    {
      WellFormedGroups(groups.items)
    }

    /** The protocol defaults to `tcp`, errors are swallowed by default, no
        trust pattern is configured by default, and the cache starts empty and
        expired. */
    constructor (service: string, domain: string, protocol: string := "tcp",
                 trusted: Option<string -> bool> := None, swallowErrors: bool := true)
      ensures this.service == QueryName(service, protocol, domain)
      ensures this.trusted == trusted && this.swallowErrors == swallowErrors
      ensures expiry == 0 && fresh(groups) && groups.items == []
      ensures Valid()
    {
      this.service := QueryName(service, protocol, domain);
      this.trusted := trusted;
      this.swallowErrors := swallowErrors;
      expiry := 0;
      groups := new GroupQueue([]);
    }

    /** The cached groups are returned without a query: not yet expired, and not empty. */
    predicate CacheHit(now: nat)
      reads this, groups
    {
      expiry > now && groups.items != []
    }

    /** A query that refreshes nothing and gives `[]`: a swallowed resolver
        error, or an answer that fails the trust check. */
    predicate Declined(resolution: Resolution)
    {
      || (resolution.Failed? && swallowErrors)
      || (resolution.Answered? && !AllTrusted(trusted, resolution.records))
    }

    /** The refresh path after a successful query: sort the records by
        `(priority, weight, name)`, reject the whole answer if any target name
        fails the trust pattern, otherwise group the records by priority. */
    method TrustedGroups(records: seq<Target>) returns (built: Option<seq<Group>>)
      ensures built.None? <==> !AllTrusted(trusted, records)
      ensures built.Some? ==>
        && IsPriorityGrouping(SortRecords(records), built.value)
        && WellFormedGroups(built.value)
        && multiset(Flatten(built.value)) == multiset(records)
    {
      var sorted := SortRecords(records);
      assert forall t :: t in sorted <==> t in records by {
        assert forall t :: t in sorted <==> t in multiset(sorted);
      }
      if trusted.Some? {
        var foundBad := CheckTrust(sorted, trusted.value);
        if foundBad {
          return None;
        }
      }
      var gs := GroupByPriority(sorted);
      GroupingOfSortedIsWellFormed(sorted, gs);
      return Some(gs);
    }

    /** `_lookup_srv`, with the refresh replacing the cached groups. */
    method LookupSrv(now: nat, resolution: Resolution) returns (r: Result<seq<Group>>)
      requires Valid()
      modifies this, groups
      ensures Valid()
      ensures r.Ok? ==> WellFormedGroups(r.value)
      ensures old(CacheHit(now)) ==>
        r == Ok(old(groups.items)) && expiry == old(expiry) && groups.items == old(groups.items)
      ensures !old(CacheHit(now)) && resolution.Failed? ==>
        && r == (if swallowErrors then Ok([]) else Err(resolution.error))
        && expiry == old(expiry) && groups.items == old(groups.items)
      ensures !old(CacheHit(now)) && resolution.Answered? && !AllTrusted(trusted, resolution.records) ==>
        r == Ok([]) && expiry == old(expiry) && groups.items == old(groups.items)
      ensures !old(CacheHit(now)) && resolution.Answered? && AllTrusted(trusted, resolution.records) ==>
        && r.Ok? && groups.items == r.value
        && IsPriorityGrouping(SortRecords(resolution.records), r.value)
        && multiset(Flatten(r.value)) == multiset(resolution.records)
        && expiry == now + resolution.ttl
    {
      if expiry > now && groups.items != [] {
        return Ok(groups.items);
      }
      if resolution.Failed? {
        if swallowErrors {
          return Ok([]);
        }
        return Err(resolution.error);
      }
      var built := TrustedGroups(resolution.records);
      if built.None? {
        return Ok([]);
      }
      groups.items := built.value;
      expiry := now + resolution.ttl;
      r := Ok(groups.items);
    }

    /** `__iter__`, with the iterator given its own copy of the groups: an
        error that is not swallowed propagates; otherwise the iterator starts
        on the cached or refreshed groups, and consuming it cannot touch the cache. */
    method Iter(now: nat, resolution: Resolution) returns (r: Result<SrvIter>)
      requires Valid()
      modifies this, groups
      ensures Valid()
      ensures r.Err? <==> !old(CacheHit(now)) && resolution.Failed? && !swallowErrors
      ensures r.Ok? ==> fresh(r.value) && fresh(r.value.queue)
      ensures r.Ok? ==> r.value.Valid() && r.value.Ordered() && r.value.current == Group(0, [])
      ensures r.Ok? ==> r.value.queue.items == groups.items || r.value.queue.items == []
      ensures old(CacheHit(now)) ==>
        && r.Ok? && r.value.queue.items == groups.items == old(groups.items)
        && expiry == old(expiry)
      ensures r.Err? ==>
        r.error == resolution.error && groups.items == old(groups.items) && expiry == old(expiry)
      ensures !old(CacheHit(now)) && Declined(resolution) ==>
        && r.Ok? && r.value.queue.items == [] && r.value.Remaining() == []
        && groups.items == old(groups.items) && expiry == old(expiry)
      ensures !old(CacheHit(now)) && resolution.Answered? && AllTrusted(trusted, resolution.records) ==>
        && r.Ok? && r.value.queue.items == groups.items
        && multiset(r.value.Remaining()) == multiset(resolution.records)
        && expiry == now + resolution.ttl
    {
      var found := LookupSrv(now, resolution);
      if found.Err? {
        return Err(found.error);
      }
      var copy := new GroupQueue(found.value);
      var it := new SrvIter(copy);
      FreshIteratorOrdered(it);
      return Ok(it);
    }

    /** `_lookup_srv` as written: a refresh appends the new groups to whatever
        the cached list still holds, and the cached list object itself is
        returned, so a caller that consumes it consumes the cache. */
    method LookupSrvAsWritten(now: nat, resolution: Resolution) returns (r: Result<GroupQueue>)
      modifies this, groups
      ensures old(CacheHit(now)) ==>
        r == Ok(groups) && expiry == old(expiry) && groups.items == old(groups.items)
      ensures !old(CacheHit(now)) && resolution.Failed? ==>
        && (if swallowErrors then r.Ok? && fresh(r.value) && r.value.items == [] else r == Err(resolution.error))
        && expiry == old(expiry) && groups.items == old(groups.items)
      ensures !old(CacheHit(now)) && resolution.Answered? && !AllTrusted(trusted, resolution.records) ==>
        && r.Ok? && fresh(r.value) && r.value.items == []
        && expiry == old(expiry) && groups.items == old(groups.items)
      ensures !old(CacheHit(now)) && resolution.Answered? && AllTrusted(trusted, resolution.records) ==>
        && r == Ok(groups)
        && |groups.items| >= |old(groups.items)|
        && groups.items[..|old(groups.items)|] == old(groups.items)
        && IsPriorityGrouping(SortRecords(resolution.records), groups.items[|old(groups.items)|..])
        && expiry == now + resolution.ttl
    {
      if expiry > now && groups.items != [] {
        return Ok(groups);
      }
      if resolution.Failed? {
        if swallowErrors {
          var empty := new GroupQueue([]);
          return Ok(empty);
        }
        return Err(resolution.error);
      }
      var built := TrustedGroups(resolution.records);
      if built.None? {
        var empty := new GroupQueue([]);
        return Ok(empty);
      }
      ghost var stale := groups.items;
      groups.items := groups.items + built.value;
      assert groups.items[|stale|..] == built.value;
      expiry := now + resolution.ttl;
      r := Ok(groups);
    }

    /** `__iter__` as written: the iterator is handed the list object the
        lookup returned, which on a cache hit or a refresh is the cache's own. */
    method IterAsWritten(now: nat, resolution: Resolution) returns (r: Result<SrvIter>)
      modifies this, groups
      ensures r.Err? <==> !old(CacheHit(now)) && resolution.Failed? && !swallowErrors
      ensures r.Ok? ==> fresh(r.value) && r.value.current == Group(0, [])
      ensures r.Ok? ==> r.value.queue == groups || (fresh(r.value.queue) && r.value.queue.items == [])
      ensures old(CacheHit(now)) ==>
        && r.Ok? && r.value.queue == groups
        && groups.items == old(groups.items) && expiry == old(expiry)
    {
      var found := LookupSrvAsWritten(now, resolution);
      if found.Err? {
        return Err(found.error);
      }
      var it := new SrvIter(found.value);
      return Ok(it);
    }
  }
}
