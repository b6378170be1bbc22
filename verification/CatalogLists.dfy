/** Lists that are filtered, sorted and cut into pages. Nothing here depends on what is listed: `rank` is a
    position in the order, and `key` an identity. */
module CatalogLists {
  import opened Sequences

  function Insert<T>(x: T, s: seq<T>, rank: T -> int): seq<T>
  {
    if s == [] then [x] else if rank(x) <= rank(s[0]) then [x] + s else [s[0]] + Insert(x, s[1..], rank)
  }

  function Sort<T>(s: seq<T>, rank: T -> int): seq<T>
  {
    if s == [] then [] else Insert(s[0], Sort(s[1..], rank), rank)
  }

  function Filter<T>(s: seq<T>, keep: T -> bool): seq<T>
  {
    if s == [] then [] else if keep(s[0]) then [s[0]] + Filter(s[1..], keep) else Filter(s[1..], keep)
  }

  function Map<T, U>(s: seq<T>, f: T -> U): (r: seq<U>)
    ensures |r| == |s| && forall i | 0 <= i < |s| :: r[i] == f(s[i])
  {
    if s == [] then [] else [f(s[0])] + Map(s[1..], f)
  }

  /** What remains without the elements whose key is listed. */
  function Without<T>(s: seq<T>, key: T -> string, keys: seq<string>): seq<T>
  {
    if s == [] then [] else if key(s[0]) in keys then Without(s[1..], key, keys)
    else [s[0]] + Without(s[1..], key, keys)
  }

  /** Each key once, where it comes first. */
  function Unique(keys: seq<string>, seen: set<string>): seq<string>
  {
    if keys == [] then []
    else if keys[0] in seen then Unique(keys[1..], seen)
    else [keys[0]] + Unique(keys[1..], seen + {keys[0]})
  }

  function Min(a: nat, b: nat): nat { if a < b then a else b }

  /** `slice` of JavaScript: what lies outside is left out. */
  function Slice<T>(s: seq<T>, from: nat, to: nat): seq<T>
  {
    if Min(from, |s|) <= Min(to, |s|) then s[Min(from, |s|)..Min(to, |s|)] else []
  }

  // ---- Sequences --------------------------------------------------------------------

  lemma {:induction false} HeadTail<T>(s: seq<T>)
    requires s != []
    ensures s == [s[0]] + s[1..]
  {
  }

  lemma {:induction false} Tail<T>(x: T, s: seq<T>)
    ensures ([x] + s)[1..] == s && ([x] + s)[0] == x
  {
  }

  lemma {:induction false} TailAppend<T>(s: seq<T>, t: seq<T>)
    requires s != []
    ensures (s + t)[1..] == s[1..] + t && (s + t)[0] == s[0]
  {
  }

  lemma {:induction false} NothingBefore<T>(s: seq<T>)
    ensures [] + s == s == s + []
  {
  }

  lemma {:induction false} TwoParts<T>(s: seq<T>, a: nat, b: nat, c: nat)
    requires a <= b <= c <= |s|
    ensures s[a..b] + s[b..c] == s[a..c]
  {
  }

  lemma {:induction false} ThreeParts<T>(s: seq<T>, a: nat, b: nat)
    requires a <= b <= |s|
    ensures s == s[..a] + (s[a..b] + s[b..])
  {
  }

  // ---- Sorting and filtering --------------------------------------------------------

  ghost predicate Sorted<T>(s: seq<T>, rank: T -> int) { forall i, j | 0 <= i < j < |s| :: rank(s[i]) <= rank(s[j]) }

  lemma {:induction false} InsertMembers<T>(x: T, s: seq<T>, rank: T -> int, y: T)
    ensures y in Insert(x, s, rank) <==> y == x || y in s
  {
    if s != [] && rank(x) > rank(s[0]) {
      InsertMembers(x, s[1..], rank, y);
    }
  }

  lemma {:induction false} InsertSorted<T>(x: T, s: seq<T>, rank: T -> int)
    requires Sorted(s, rank)
    ensures Sorted(Insert(x, s, rank), rank)
  {
    if s != [] && rank(x) > rank(s[0]) {
      InsertSorted(x, s[1..], rank);
      forall y | y in Insert(x, s[1..], rank) ensures rank(s[0]) <= rank(y) {
        InsertMembers(x, s[1..], rank, y);
      }
    }
  }

  lemma {:induction false} SortSorted<T>(s: seq<T>, rank: T -> int)
    ensures Sorted(Sort(s, rank), rank)
  {
    if s != [] {
      SortSorted(s[1..], rank);
      InsertSorted(s[0], Sort(s[1..], rank), rank);
    }
  }

  lemma {:induction false} SortMembers<T>(s: seq<T>, rank: T -> int, y: T)
    ensures y in Sort(s, rank) <==> y in s
  {
    if s != [] {
      SortMembers(s[1..], rank, y);
      InsertMembers(s[0], Sort(s[1..], rank), rank, y);
    }
  }

  lemma {:induction false} FilterMembers<T>(s: seq<T>, keep: T -> bool, y: T)
    ensures y in Filter(s, keep) <==> y in s && keep(y)
  {
    if s != [] {
      FilterMembers(s[1..], keep, y);
    }
  }

  lemma {:induction false} FilterCons<T>(x: T, s: seq<T>, keep: T -> bool)
    ensures Filter([x] + s, keep) == if keep(x) then [x] + Filter(s, keep) else Filter(s, keep)
  {
    Tail(x, s);
  }

  lemma {:induction false} InsertCons<T>(x: T, y: T, s: seq<T>, rank: T -> int)
    ensures Insert(x, [y] + s, rank) == if rank(x) <= rank(y) then [x] + ([y] + s) else [y] + Insert(x, s, rank)
  {
    Tail(y, s);
  }

  lemma {:induction false} InsertFront<T>(x: T, s: seq<T>, rank: T -> int)
    requires forall y | y in s :: rank(x) <= rank(y)
    ensures Insert(x, s, rank) == [x] + s
  {
    NothingBefore([x]);
  }

  lemma {:induction false} FilterInsert<T>(x: T, s: seq<T>, rank: T -> int, keep: T -> bool)
    requires Sorted(s, rank)
    ensures Filter(Insert(x, s, rank), keep) == if keep(x) then Insert(x, Filter(s, keep), rank) else Filter(s, keep)
  {
    if s == [] || rank(x) <= rank(s[0]) {
      NothingBefore([x]);
      FilterCons(x, s, keep);
      forall y | y in Filter(s, keep) ensures rank(x) <= rank(y) {
        FilterMembers(s, keep, y);
      }
      InsertFront(x, Filter(s, keep), rank);
    } else {
      FilterInsert(x, s[1..], rank, keep);
      FilterCons(s[0], Insert(x, s[1..], rank), keep);
      InsertCons(x, s[0], Filter(s[1..], keep), rank);
    }
  }

  lemma {:induction false} SortCons<T>(x: T, s: seq<T>, rank: T -> int)
    ensures Sort([x] + s, rank) == Insert(x, Sort(s, rank), rank)
  {
    Tail(x, s);
  }

  /** It does not matter whether what is kept is sorted or what is sorted is filtered. */
  lemma {:induction false} SortFilter<T>(s: seq<T>, rank: T -> int, keep: T -> bool)
    ensures Sort(Filter(s, keep), rank) == Filter(Sort(s, rank), keep)
  {
    if s != [] {
      SortFilter(s[1..], rank, keep);
      SortSorted(s[1..], rank);
      FilterInsert(s[0], Sort(s[1..], rank), rank, keep);
      SortCons(s[0], Filter(s[1..], keep), rank);
    }
  }

  /** Rows that are filtered and sorted, and then mapped, are mapped rows that are filtered and sorted. */
  lemma {:induction false} MapFilter<T, U>(s: seq<T>, f: T -> U, keep: T -> bool, kept: U -> bool)
    requires forall x | x in s :: keep(x) <==> kept(f(x))
    ensures Map(Filter(s, keep), f) == Filter(Map(s, f), kept)
  {
    if s != [] {
      MapFilter(s[1..], f, keep, kept);
      MapCons(s[0], Filter(s[1..], keep), f);
    }
  }

  lemma {:induction false} MapCons<T, U>(x: T, s: seq<T>, f: T -> U)
    ensures Map([x] + s, f) == [f(x)] + Map(s, f)
  {
    Tail(x, s);
  }

  lemma {:induction false} MapPart<T, U>(s: seq<T>, f: T -> U, a: nat, b: nat)
    requires a <= b <= |s|
    ensures Map(s[a..b], f) == Map(s, f)[a..b]
  {
  }

  lemma {:induction false} MapInsert<T, U>(x: T, s: seq<T>, f: T -> U, rank: T -> int, ranked: U -> int)
    requires forall y: T :: rank(y) == ranked(f(y))
    ensures Map(Insert(x, s, rank), f) == Insert(f(x), Map(s, f), ranked)
  {
    if s == [] || rank(x) <= rank(s[0]) {
      NothingBefore([x]);
      MapCons(x, s, f);
      NothingBefore([f(x)]);
    } else {
      MapInsert(x, s[1..], f, rank, ranked);
      MapCons(s[0], Insert(x, s[1..], rank), f);
      InsertCons(f(x), f(s[0]), Map(s[1..], f), ranked);
    }
  }

  lemma {:induction false} MapSort<T, U>(s: seq<T>, f: T -> U, rank: T -> int, ranked: U -> int)
    requires forall y: T :: rank(y) == ranked(f(y))
    ensures Map(Sort(s, rank), f) == Sort(Map(s, f), ranked)
  {
    if s != [] {
      MapSort(s[1..], f, rank, ranked);
      MapInsert(s[0], Sort(s[1..], rank), f, rank, ranked);
      SortCons(f(s[0]), Map(s[1..], f), ranked);
    }
  }

  lemma {:induction false} MapSlice<T, U>(s: seq<T>, f: T -> U, from: nat, to: nat)
    ensures Map(Slice(s, from, to), f) == Slice(Map(s, f), from, to)
  {
  }

  // ---- Keys -------------------------------------------------------------------------

  predicate Distinct(keys: seq<string>) { keys == [] || (keys[0] !in keys[1..] && Distinct(keys[1..])) }

  lemma {:induction false} DistinctAt(keys: seq<string>, i: nat, j: nat)
    requires Distinct(keys) && i < j < |keys|
    ensures keys[i] != keys[j]
  {
    if i > 0 {
      DistinctAt(keys[1..], i - 1, j - 1);
    }
  }

  lemma {:induction false} DistinctParts(keys: seq<string>, a: nat, b: nat)
    requires Distinct(keys) && a <= b <= |keys|
    ensures Distinct(keys[a..b])
    decreases b - a
  {
    if a < b {
      DistinctParts(keys, a + 1, b);
      assert keys[a..b][1..] == keys[a + 1..b];
      forall i | a < i < b ensures keys[i] != keys[a] {
        DistinctAt(keys, a, i);
      }
    }
  }

  lemma {:induction false} KeyMembers<T>(s: seq<T>, key: T -> string, k: string)
    ensures k in Map(s, key) <==> exists x | x in s :: key(x) == k
  {
    if s != [] {
      KeyMembers(s[1..], key, k);
    }
  }

  lemma {:induction false} InsertDistinct<T>(x: T, s: seq<T>, rank: T -> int, key: T -> string)
    requires Distinct(Map(s, key)) && key(x) !in Map(s, key)
    ensures Distinct(Map(Insert(x, s, rank), key))
  {
    if s == [] || rank(x) <= rank(s[0]) {
      NothingBefore([x]);
      MapCons(x, s, key);
      Tail(key(x), Map(s, key));
    } else {
      var rest := Insert(x, s[1..], rank);
      HeadTail(s);
      MapCons(s[0], s[1..], key);
      Tail(key(s[0]), Map(s[1..], key));
      InsertDistinct(x, s[1..], rank, key);
      MapCons(s[0], rest, key);
      Tail(key(s[0]), Map(rest, key));
      KeyMembers(rest, key, key(s[0]));
      KeyMembers(s[1..], key, key(s[0]));
      forall y | y in rest ensures key(y) != key(s[0]) {
        InsertMembers(x, s[1..], rank, y);
      }
    }
  }

  lemma {:induction false} SortDistinct<T>(s: seq<T>, rank: T -> int, key: T -> string)
    requires Distinct(Map(s, key))
    ensures Distinct(Map(Sort(s, rank), key))
  {
    if s != [] {
      HeadTail(s);
      MapCons(s[0], s[1..], key);
      Tail(key(s[0]), Map(s[1..], key));
      SortDistinct(s[1..], rank, key);
      KeyMembers(s[1..], key, key(s[0]));
      KeyMembers(Sort(s[1..], rank), key, key(s[0]));
      forall y | y in Sort(s[1..], rank) ensures key(y) != key(s[0]) {
        SortMembers(s[1..], rank, y);
      }
      InsertDistinct(s[0], Sort(s[1..], rank), rank, key);
    }
  }

  lemma {:induction false} FilterDistinct<T>(s: seq<T>, keep: T -> bool, key: T -> string)
    requires Distinct(Map(s, key))
    ensures Distinct(Map(Filter(s, keep), key))
  {
    if s != [] {
      var rest := Filter(s[1..], keep);
      HeadTail(s);
      MapCons(s[0], s[1..], key);
      Tail(key(s[0]), Map(s[1..], key));
      FilterDistinct(s[1..], keep, key);
      KeyMembers(s[1..], key, key(s[0]));
      KeyMembers(rest, key, key(s[0]));
      forall y | y in rest ensures key(y) != key(s[0]) {
        FilterMembers(s[1..], keep, y);
      }
      MapCons(s[0], rest, key);
      Tail(key(s[0]), Map(rest, key));
    }
  }

  lemma {:induction false} UniqueOfDistinct(keys: seq<string>, seen: set<string>)
    requires Distinct(keys) && forall k | k in keys :: k !in seen
    ensures Unique(keys, seen) == keys
  {
    if keys != [] {
      HeadTail(keys);
      UniqueOfDistinct(keys[1..], seen + {keys[0]});
    }
  }

  // ---- Taking out what was shown ----------------------------------------------------

  lemma {:induction false} FilterWithout<T>(s: seq<T>, keep: T -> bool, fewer: T -> bool, key: T -> string,
                                            keys: seq<string>)
    requires forall x | x in s :: fewer(x) <==> keep(x) && key(x) !in keys
    ensures Filter(s, fewer) == Without(Filter(s, keep), key, keys)
  {
    if s != [] {
      FilterWithout(s[1..], keep, fewer, key, keys);
      Tail(s[0], Filter(s[1..], keep));
    }
  }

  lemma {:induction false} WithoutAppend<T>(s: seq<T>, t: seq<T>, key: T -> string, keys: seq<string>)
    ensures Without(s + t, key, keys) == Without(s, key, keys) + Without(t, key, keys)
  {
    if s == [] {
      NothingBefore(t);
      NothingBefore(Without(t, key, keys));
    } else {
      TailAppend(s, t);
      WithoutAppend(s[1..], t, key, keys);
      Associative([s[0]], Without(s[1..], key, keys), Without(t, key, keys));
    }
  }

  lemma {:induction false} WithoutAll<T>(s: seq<T>, key: T -> string, keys: seq<string>)
    requires forall x | x in s :: key(x) in keys
    ensures Without(s, key, keys) == []
  {
    if s != [] {
      WithoutAll(s[1..], key, keys);
    }
  }

  lemma {:induction false} WithoutNone<T>(s: seq<T>, key: T -> string, keys: seq<string>)
    requires forall x | x in s :: key(x) !in keys
    ensures Without(s, key, keys) == s
  {
    if s != [] {
      HeadTail(s);
      WithoutNone(s[1..], key, keys);
    }
  }

  /** The keys of a part belong to that part only. */
  lemma {:induction false} KeysOfPart<T>(all: seq<T>, key: T -> string, a: nat, b: nat, i: nat)
    requires Distinct(Map(all, key)) && a <= b <= |all| && i < |all|
    ensures key(all[i]) in Map(all[a..b], key) <==> a <= i < b
  {
    var keys := Map(all[a..b], key);
    if a <= i < b {
      assert keys[i - a] == key(all[i]);
    } else if key(all[i]) in keys {
      var j :| 0 <= j < |keys| && keys[j] == key(all[i]);
      DistinctAt(Map(all, key), if i < a then i else a + j, if i < a then a + j else i);
    }
  }

  /** Without the keys of a part, the part is gone and the rest is as it was. */
  lemma {:induction false} CutOut<T>(all: seq<T>, key: T -> string, a: nat, b: nat)
    requires Distinct(Map(all, key)) && a <= b <= |all|
    ensures Without(all, key, Map(all[a..b], key)) == all[..a] + all[b..]
  {
    var keys := Map(all[a..b], key);
    forall i: nat | i < |all| ensures key(all[i]) in keys <==> a <= i < b {
      KeysOfPart(all, key, a, b, i);
    }
    WithoutNone(all[..a], key, keys);
    WithoutAll(all[a..b], key, keys);
    WithoutNone(all[b..], key, keys);
    WithoutAppend(all[a..b], all[b..], key, keys);
    WithoutAppend(all[..a], all[a..b] + all[b..], key, keys);
    ThreeParts(all, a, b);
    NothingBefore(all[b..]);
  }

  /** What remains, cut from the same offset on, is what comes next. */
  lemma {:induction false} NextSlice<T>(all: seq<T>, offset: nat, limit: nat, to: nat)
    requires Min(offset, |all|) <= to <= |all|
    ensures var rest := all[..Min(offset, |all|)] + all[to..];
            Slice(rest, offset, offset + limit) == all[to..Min(to + limit, |all|)]
            && (offset + |Slice(rest, offset, offset + limit)| >= |rest| <==> Min(to + limit, |all|) == |all|)
  {
    var rest := all[..Min(offset, |all|)] + all[to..];
    if offset <= |all| {
      var page := Slice(rest, offset, offset + limit);
      assert |page| == Min(to + limit, |all|) - to;
      assert forall i | 0 <= i < |page| :: page[i] == rest[offset + i] == all[to + i];
    }
  }

  /** One element more is enough to know whether there is more. */
  lemma {:induction false} Lookahead<T>(s: seq<T>, from: nat, limit: nat)
    ensures Slice(Slice(s, from, from + (limit + 1)), 0, limit) == Slice(s, from, from + limit)
    ensures |Slice(s, from, from + (limit + 1))| <= limit <==> from + |Slice(s, from, from + limit)| >= |s|
  {
  }
}
