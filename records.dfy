/** The values the SRV query object and its iterator work on: SRV records
    (targets), priority groups, resolver answers, and the sums and removals the
    selection algorithm performs on member lists. */
module Records {

  /** An unsigned 16-bit field of an SRV record (RFC 2782): priority, weight or port. */
  type U16 = x: int | 0 <= x < 0x1_0000

  /** One SRV record: the target host name as text, without its final dot. */
  datatype Target = Target(priority: U16, weight: U16, port: U16, name: string)

  /** A priority group as the cache and the iterator hold it: the tuple
      `(total_weight, members)`. The priority is not stored; it is that of the members. */
  datatype Group = Group(total: int, members: seq<Target>)

  datatype Option<T> = None | Some(value: T)

  /** A failure reported by the resolver (a `DNSException`). */
  datatype DnsError = DnsError(reason: string)

  /** A value, or a resolver error propagated to the caller. */
  datatype Result<T> = Ok(value: T) | Err(error: DnsError)

  /** What the resolver answers to one SRV query: the records and their TTL in seconds, or an error. */
  datatype Resolution = Answered(records: seq<Target>, ttl: nat) | Failed(error: DnsError)

  /** The sum of the members' weights. */
  function WeightSum(ms: seq<Target>): (s: int)
    ensures s >= 0
  {
    if ms == [] then 0 else ms[0].weight + WeightSum(ms[1..])
  }

  /** The members of all groups, in queue order. */
  function Flatten(gs: seq<Group>): seq<Target>
  {
    if gs == [] then [] else gs[0].members + Flatten(gs[1..])
  }

  /** The list after `pop(k)`. */
  function RemoveAt<T>(s: seq<T>, k: nat): (r: seq<T>)
    requires k < |s|
    ensures |r| == |s| - 1
    ensures forall j :: 0 <= j < k ==> r[j] == s[j]
    ensures forall j :: k <= j < |r| ==> r[j] == s[j + 1]
  {
    s[..k] + s[k + 1..]
  }

  /** The priority a group stands for (that of its first member). */
  function GroupPriority(g: Group): int
  {
    if g.members == [] then 0 else g.members[0].priority
  }

  /** Every member shares the priority of the first. */
  predicate Uniform(ms: seq<Target>)
  {
    forall i :: 0 <= i < |ms| ==> ms[i].priority == ms[0].priority
  }

  /** Priorities never decrease along the sequence. */
  predicate PrioritySorted(s: seq<Target>)
  {
    forall i, j :: 0 <= i < j < |s| ==> s[i].priority <= s[j].priority
  }

  lemma {:induction false} WeightSumAppend(a: seq<Target>, b: seq<Target>)
    ensures WeightSum(a + b) == WeightSum(a) + WeightSum(b)
  {
    if a == [] {
      assert a + b == b;
    } else {
      assert (a + b)[1..] == a[1..] + b;
      WeightSumAppend(a[1..], b);
    }
  }

  /** Popping member `k` lowers the sum of weights by exactly its weight, so a
      group whose total equals the sum of its weights keeps that property when
      the total is lowered by the weight of the member removed. */
  lemma {:induction false} WeightSumRemoveAt(ms: seq<Target>, k: nat)
    requires k < |ms|
    ensures WeightSum(RemoveAt(ms, k)) == WeightSum(ms) - ms[k].weight
  {
    var front, back := ms[..k], ms[k + 1..];
    var tail := [ms[k]] + back;
    assert ms == front + tail;
    WeightSumAppend(front, tail);
    assert tail[1..] == back;
    assert WeightSum(tail) == ms[k].weight + WeightSum(back);
    WeightSumAppend(front, back);
  }

  /** Weights are never negative, so the sum of weights is zero or less
      exactly when every member has weight zero. */
  lemma {:induction false} NoWeightMeansAllZero(ms: seq<Target>)
    ensures WeightSum(ms) <= 0 <==> forall i :: 0 <= i < |ms| ==> ms[i].weight == 0
  {
    if ms != [] {
      NoWeightMeansAllZero(ms[1..]);
      assert forall i :: 1 <= i < |ms| ==> ms[i] == ms[1..][i - 1];
    }
  }

  /** The prefix sum grows by the weight of the next member. */
  lemma {:induction false} PrefixSumStep(ms: seq<Target>, i: nat)
    requires i < |ms|
    ensures WeightSum(ms[..i + 1]) == WeightSum(ms[..i]) + ms[i].weight
  {
    assert ms[..i + 1] == ms[..i] + [ms[i]];
    WeightSumAppend(ms[..i], [ms[i]]);
  }

  /** A prefix never weighs more than the whole list. */
  lemma {:induction false} PrefixSumBounded(ms: seq<Target>, i: nat)
    requires i <= |ms|
    ensures WeightSum(ms[..i]) <= WeightSum(ms)
  {
    assert ms == ms[..i] + ms[i..];
    WeightSumAppend(ms[..i], ms[i..]);
  }

  lemma {:induction false} FlattenAppend(a: seq<Group>, b: seq<Group>)
    ensures Flatten(a + b) == Flatten(a) + Flatten(b)
  {
    if a == [] {
      assert a + b == b;
    } else {
      assert (a + b)[1..] == a[1..] + b;
      FlattenAppend(a[1..], b);
    }
  }

  /** Popping an element of the first part of a concatenation pops it from the whole. */
  lemma {:induction false} RemoveAtAppend<T>(a: seq<T>, b: seq<T>, k: nat)
    requires k < |a|
    ensures RemoveAt(a + b, k) == RemoveAt(a, k) + b
  {
  }

  /** Popping element `k` takes exactly that element out of the multiset. */
  lemma {:induction false} RemoveAtMultiset<T>(s: seq<T>, k: nat)
    requires k < |s|
    ensures multiset(RemoveAt(s, k)) + multiset{s[k]} == multiset(s)
  {
    assert s == s[..k] + [s[k]] + s[k + 1..];
  }
}
