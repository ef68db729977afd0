# robin_srv in Dafny

A model of the core of `robin_srv`: a query object for the DNS SRV records of
one service, and an iterator that hands out the service's targets for
client-side load balancing as RFC 2782 describes. The query name is
`_service._protocol.domain`. The resolver's answer is sorted by
`(priority, weight, name)` and rejected as a whole if any target name fails
the optional trust pattern. It is then grouped by priority into
`(total_weight, members)` groups and cached until its TTL expires. Iterating
draws targets group by group, in ascending priority. Within a group each
draw is weighted and removes the target drawn. A zero-weight target is drawn
only once no weight is left in its group.

Modules, one per file:

- `Records` (`records.dfy`): targets, groups, resolver answers and results,
  weight sums, flattening a group list, and `pop(k)` on a list.
- `RecordOrder` (`order.dfy`): Python's ordering on the sort key and the sort itself.
- `RecordSet` (`builder.dfy`): the query name, the trust check and the grouping by priority.
- `Selection` (`selection.dfy`): the weighted draw, the iterator class
  `SrvIter` over a `GroupQueue` (the Python list object of groups), and
  draining an iterator.
- `Cache` (`cache.dfy`): the query object class `Srv` with its TTL cache.
  It has two versions of the lookup and of `__iter__`: the corrected ones
  used by the rest of the model, and the ones as written (see Findings).
- `Findings` (`findings.dfy`): concrete runs that exhibit the two findings
  and the same runs on the corrected cache.

The resolver is not called: its answer (records and TTL, or a `DNSException`
as `DnsError`) is a parameter of the lookup. The clock is a parameter `now`
in whole seconds. The cache starts at instant 0, which stands for
`datetime(1, 1, 1)`. Each value `randint` returns is a parameter whose
precondition is the range of that `randint` call. `Drain` takes a function
`rng(step, lo, hi)` that stands for the sequence of `randint` calls. The
trust pattern is a predicate on target names, standing for
`re.compile(trusted).match`.

## Model

| member | source | states |
|---|---|---|
| Records.WeightSumRemoveAt | src/robin_srv/srv.py:76-79 | popping member `k` lowers the sum of the group's weights by exactly that member's weight, so `total_weight - chosen.weight` stays the sum of the weights left |
| Records.NoWeightMeansAllZero | src/robin_srv/srv.py:57-59 | the weights of a member list sum to zero or less exactly when every member has weight zero, so the "only zero weighted servers remain" branch is entered exactly when only zero-weight members are left |
| RecordOrder.Insert | src/robin_srv/srv.py:178-181 | inserting into a list sorted by `(priority, weight, name)` gives a sorted list holding the same records plus the new one |
| RecordOrder.SortRecords | src/robin_srv/srv.py:178-181 | the result is sorted by Python's tuple order on `(priority, weight, name)` and is a permutation of the answer's records |
| RecordSet.QueryNameLayout | src/robin_srv/srv.py:134 | the query name is `_`, the service, `._`, the protocol, `.`, the domain, at these exact positions |
| RecordSet.QueryNameInjective | src/robin_srv/srv.py:134 | when service and protocol contain no dot, equal query names have equal service, protocol and domain |
| RecordSet.CheckTrust | src/robin_srv/srv.py:182-192 | the loop flags the answer exactly when some target name fails the trust pattern |
| RecordSet.CollectRun | src/robin_srv/srv.py:194-197 | one `groupby` group: the maximal run of records with the priority of the first, as one group whose total is the sum of its weights |
| RecordSet.GroupByPriority | src/robin_srv/srv.py:194-197 | the groups flatten back to the records in order, each is a non-empty run of one priority whose total is its weight sum, and adjacent groups differ in priority |
| RecordSet.GroupingOfSortedIsWellFormed | src/robin_srv/srv.py:178-197 | grouping a sorted answer gives strictly ascending group priorities, with members ordered by weight and then name inside each group |
| RecordSet.WellFormedFlattenSorted | src/robin_srv/srv.py:153-158 | reading such a group list front to back meets the priorities in non-decreasing order, none below the first group's |
| Selection.FirstCovering | src/robin_srv/srv.py:63-73 | for a draw between 1 and the weight sum, the running sum reaches the draw at some member, and that member has positive weight |
| Selection.FirstCoveringIsFirst | src/robin_srv/srv.py:64-73 | the running sum has reached the draw at the index chosen and at no earlier index, as the loop's `break` requires |
| Selection.PickIndex | src/robin_srv/srv.py:55-74 | the index chosen is within the group, and with positive total weight it is a member of positive weight |
| Selection.ZeroWeightDeferred | src/robin_srv/srv.py:49-74 | with total equal to the weight sum, every `randint` value leads to a member; while any member has positive weight a positive-weight member is chosen; otherwise the draw indexes the members directly and all have weight zero |
| Selection.SrvIter.constructor | src/robin_srv/srv.py:31-34 | the iterator holds the group list object it was given and starts with the empty current group `(0, [])` |
| Selection.RandintBounds | src/robin_srv/srv.py:57-63 | the bounds of the `randint` call: `(0, size - 1)` when no weight is left, `(1, total)` otherwise; for a non-empty group the range is never empty, so `randint` cannot raise `ValueError` |
| Selection.SrvIter.DrawBounds | src/robin_srv/srv.py:90-100 | the `randint` range of the next step, taken on the group that step draws from (the front of the queue when the current group is used up), is non-empty whenever that group has members |
| Selection.SrvIter.ChooseServer | src/robin_srv/srv.py:39-83 | a member is returned exactly when the draw leads to one, and always when the group is non-empty and its total is its weight sum (the "probably a bug" exit is unreachable then); the member returned is the one at the chosen index, and the new group is the rest with the total lowered by its weight |
| Selection.SrvIter.Next | src/robin_srv/srv.py:85-101 | the step pops the front group when the current one is used up; it ends the sequence exactly when nothing is left; otherwise it returns the chosen target, removes exactly that one from the targets left, keeps every total equal to its weight sum, and on an ordered iterator keeps the order and returns a target of the lowest priority left |
| Selection.FreshIteratorOrdered | src/robin_srv/srv.py:31-33 | an iterator started on a well-formed group list has consistent totals, one priority per group, and yields the list's targets in ascending priority |
| Selection.RemovalKeepsOrder | src/robin_srv/srv.py:76-79 | popping a member of the front group keeps it at one priority and the targets left in priority order, and the popped member's priority is no greater than any left |
| Selection.Drain | src/robin_srv/srv.py:85-104 | running an ordered iterator to the end yields every target it held exactly once (a permutation), in non-decreasing priority, and leaves it empty |
| Cache.Srv.constructor | src/robin_srv/srv.py:106-140 | query name `_service._protocol.domain`, protocol `tcp`, errors swallowed and no trust pattern by default, an empty cache that has already expired |
| Cache.Srv.TrustedGroups | src/robin_srv/srv.py:178-197 | nothing is built exactly when some target name fails the trust pattern; otherwise the groups are the priority grouping of the sorted answer, well-formed, holding exactly the answer's records |
| Cache.Srv.LookupSrv | src/robin_srv/srv.py:148-201 | a cache hit (not expired and not empty) returns the cached groups unchanged; a resolver error gives `[]` or the error, and a rejected answer gives `[]`, with the cache left as it was; a trusted answer becomes the cached groups with expiry `now + ttl` |
| Cache.Srv.Iter | src/robin_srv/srv.py:203-209 | the lookup's error propagates only when it is not swallowed, leaving cache and expiry as they were; a swallowed error or a rejected answer gives an iterator with nothing to yield and leaves cache and expiry as they were; otherwise the iterator is fresh, ordered, starts on the cached or refreshed groups (which hold exactly the answer's records after a refresh), and owns its own list, so consuming it leaves the cache unchanged |
| Cache.Srv.LookupSrvAsWritten | src/robin_srv/srv.py:148-201 | the lookup as written: a hit returns the cache's own list object; errors and rejected answers return a fresh empty list; a trusted answer is appended after whatever the cache still held |
| Cache.Srv.IterAsWritten | src/robin_srv/srv.py:203-209 | `__iter__` as written: on a cache hit the iterator is handed the cache's own list object |
| Findings.CachedPair | src/robin_srv/srv.py:166-201 | after one lookup of a two-record answer, the cache holds one group per record and expires at the TTL |
| Findings.StaleRefreshDuplicates | src/robin_srv/srv.py:194-197 | as written, a refresh after expiry while stale groups remain yields the answer's target twice |
| Findings.RefreshReplaces | src/robin_srv/srv.py:194-197 | on the corrected cache the same two lookups yield the target once |
| Findings.SharedIteratorDrainsCache | src/robin_srv/srv.py:92 | as written, one step of an iterator removes the first group from the cache, so a lookup within the TTL returns only the second target |
| Findings.IsolatedIteratorKeepsCache | src/robin_srv/srv.py:203-209 | on the corrected cache the same run still returns both targets within the TTL |

## Left out

- `src/robin_srv/cli.py` (argument parsing and printing) is not part of this model.
- The resolver (dnspython) is a parameter: the answer's records and TTL, or a `DnsError`. Resolver errors other than `DNSException` are not modelled.
- `_format_name` (`to_text` of the target name) is taken as already done: `Target.name` is that text.
- Regular expressions: the trust pattern is an arbitrary predicate on names, so the meaning of `re.match` is not modelled.
- `random.randint` is modelled only by its range; its distribution, and so the probability of each target being drawn, is not modelled.
- `datetime`: time is whole seconds, and one `now` stands for both calls to `datetime.now()` in a lookup.
- Logging is left out; it changes no state the model covers.
- `__iter__` returning `self` and the Python 2/3 `next` alias are protocol glue; `Drain` stands for the `for` loop that uses them.
- Selection.SrvIter.ChooseServer: the precondition is the range of the `randint` call. For an empty group with non-positive total that range is empty (`randint(1, 0)` raises `ValueError`), so that call is excluded; `next` never makes it, since it stops on an empty group first.
- RecordOrder.SortRecords: stability of Python's `sorted` for records with equal keys (same priority, weight and name, different port) is not stated.
- Cache.Srv.IterAsWritten: after a refresh or a rejected answer it states only that the iterator holds the cache's list or a fresh empty one, not its contents.
- Thread safety of the cache is not modelled; the model is single-threaded, as the source is.

## Findings

The code as written makes the iterator and the cache share one list object.
The corrected `Cache.Srv.LookupSrv` and `Cache.Srv.Iter` give the behaviour
the docstring of `SRV.__init__` describes (src/robin_srv/srv.py:114-115):
iterating over the object several times gives fresh random orders of the same
records, so each iteration covers the whole record set while the cache is
valid, and a refresh yields each record once.

| source | as written | input that shows it | evidently intended | confidence | as-written member | corrected member |
|---|---|---|---|---|---|---|
| src/robin_srv/srv.py:194-197 | a refresh appends the new groups to `self.groups` without clearing it | an answer with one target and TTL 60 is looked up at 0 (an `iter(srv)` that is never advanced); a second lookup at 60 finds the cache expired but not empty, and the target appears twice | a refresh replaces the cached groups | high, not executed | Findings.StaleRefreshDuplicates | Findings.RefreshReplaces |
| src/robin_srv/srv.py:92 | `__iter__` hands the iterator the cache's own list, and `next` pops groups from it | an answer with targets at priorities 10 and 20 and TTL 60 is looked up at 0; an iterator made at 1 produces one target; a lookup at 2 hits the cache and returns only the priority-20 target | the iterator works on its own copy, so the cache keeps every group until it expires | high, not executed | Findings.SharedIteratorDrainsCache | Findings.IsolatedIteratorKeepsCache |
