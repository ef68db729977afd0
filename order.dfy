/** The sort applied to a resolver answer before grouping: records in ascending
    order of the tuple `(priority, weight, name)`, compared the way Python
    compares tuples, integers and strings. */
module RecordOrder {
  import opened Records

  /** Python's `<=` on strings: lexicographic by code point, a prefix first. */
  predicate NameLe(a: string, b: string)
    decreases |a|
  {
    a == [] || (b != [] && (a[0] < b[0] || (a[0] == b[0] && NameLe(a[1..], b[1..]))))
  }

  /** Python's `<=` on the sort key `(priority, weight, name)`. */
  predicate KeyLe(x: Target, y: Target)
  {
    x.priority < y.priority ||
    (x.priority == y.priority &&
      (x.weight < y.weight || (x.weight == y.weight && NameLe(x.name, y.name))))
  }

  predicate SortedByKey(s: seq<Target>)
  {
    forall i, j :: 0 <= i < j < |s| ==> KeyLe(s[i], s[j])
  }

  lemma {:induction false} NameLeTotal(a: string, b: string)
    ensures NameLe(a, b) || NameLe(b, a)
    decreases |a|
  {
    if a != [] && b != [] && a[0] == b[0] {
      NameLeTotal(a[1..], b[1..]);
    }
  }

  lemma {:induction false} NameLeTransitive(a: string, b: string, c: string)
    requires NameLe(a, b) && NameLe(b, c)
    ensures NameLe(a, c)
    decreases |a|
  {
    if a != [] && a[0] == b[0] && b[0] == c[0] {
      NameLeTransitive(a[1..], b[1..], c[1..]);
    }
  }

  /** The key order is total: of two records one always sorts no later than the other. */
  lemma KeyLeTotal(x: Target, y: Target)
    ensures KeyLe(x, y) || KeyLe(y, x)
  {
    NameLeTotal(x.name, y.name);
  }

  lemma KeyLeTransitive(x: Target, y: Target, z: Target)
    requires KeyLe(x, y) && KeyLe(y, z)
    ensures KeyLe(x, z)
  {
    if x.priority == y.priority == z.priority && x.weight == y.weight == z.weight {
      NameLeTransitive(x.name, y.name, z.name);
    }
  }

  /** Places `x` after every element of the sorted `s` that sorts no later than it. */
  function Insert(x: Target, s: seq<Target>): (r: seq<Target>)
    requires SortedByKey(s)
    ensures SortedByKey(r)
    ensures multiset(r) == multiset(s) + multiset{x}
  {
    if s == [] then [x]
    else if !KeyLe(s[0], x) then
      KeyLeTotal(s[0], x);
      InsertBeforeHead(x, s);
      [x] + s
    else
      var rest := Insert(x, s[1..]);
      InsertAfterHead(x, s, rest);
      assert s == [s[0]] + s[1..];
      [s[0]] + rest
  }

  lemma {:induction false} InsertBeforeHead(x: Target, s: seq<Target>)
    requires SortedByKey(s) && s != [] && KeyLe(x, s[0])
    ensures SortedByKey([x] + s)
  {
    forall j | 0 < j < |s| ensures KeyLe(x, s[j]) {
      KeyLeTransitive(x, s[0], s[j]);
    }
  }

  lemma {:induction false} InsertAfterHead(x: Target, s: seq<Target>, rest: seq<Target>)
    requires SortedByKey(s) && s != [] && KeyLe(s[0], x)
    requires SortedByKey(rest) && multiset(rest) == multiset(s[1..]) + multiset{x}
    ensures SortedByKey([s[0]] + rest)
  {
    forall j | 0 <= j < |rest| ensures KeyLe(s[0], rest[j]) {
      assert rest[j] in multiset(rest);
      if rest[j] != x {
        assert rest[j] in multiset(s[1..]);
        var m :| 0 <= m < |s[1..]| && s[1..][m] == rest[j];
        assert s[m + 1] == rest[j];
      }
    }
  }

  /** `sorted(records, key=(priority, weight, name))`, as an insertion sort that
      keeps records with equal keys in their original order. */
  function SortRecords(records: seq<Target>): (r: seq<Target>)
    ensures SortedByKey(r)
    ensures multiset(r) == multiset(records)
  {
    if records == [] then []
    else
      var last := |records| - 1;
      assert records == records[..last] + [records[last]];
      Insert(records[last], SortRecords(records[..last]))
  }
}
