/**
 * The store's filtered, ordered select over one table: the rows of a map
 * that satisfy a filter, in the order of an ORDER BY. The order is a total
 * order on entries (the sort key, then the row id), so the listing of a table
 * is unique; `Listed` names it, and `SelectSorted` computes it.
 */
module Listing {
  import opened Text

  /** A row together with its id. */
  datatype Entry<R> = Entry(id: string, row: R)

  /** `le` is total, transitive, and orders two entries both ways only when they share an id. */
  ghost predicate IsTotalOrder<R(!new)>(le: (Entry<R>, Entry<R>) -> bool) {
    && (forall a, b :: le(a, b) || le(b, a))
    && (forall a, b, c :: le(a, b) && le(b, c) ==> le(a, c))
    && (forall a, b :: le(a, b) && le(b, a) ==> a.id == b.id)
  }

  ghost predicate SortedBy<R>(s: seq<Entry<R>>, le: (Entry<R>, Entry<R>) -> bool) {
    forall i, j :: 0 <= i < j < |s| ==> le(s[i], s[j])
  }

  predicate DistinctIds<R>(s: seq<Entry<R>>) {
    forall i, j :: 0 <= i < j < |s| ==> s[i].id != s[j].id
  }

  /** `s` holds exactly the rows of `t` that pass `keep`, each with its own id. */
  ghost predicate ListsExactly<R>(s: seq<Entry<R>>, t: map<string, R>, keep: R -> bool) {
    && (forall e :: e in s ==> e.id in t && t[e.id] == e.row && keep(e.row))
    && (forall id :: id in t && keep(t[id]) ==> Entry(id, t[id]) in s)
  }

  /** `s` is the result of `SELECT ... WHERE keep ORDER BY le` on `t`. */
  ghost predicate IsListing<R>(s: seq<Entry<R>>, t: map<string, R>, keep: R -> bool, le: (Entry<R>, Entry<R>) -> bool) {
    SortedBy(s, le) && DistinctIds(s) && ListsExactly(s, t, keep)
  }

  /** The ids the filter selects. */
  function MatchingIds<R>(t: map<string, R>, keep: R -> bool): (ids: set<string>)
    ensures forall id :: id in ids <==> id in t && keep(t[id])
  {
    set id | id in t && keep(t[id])
  }

  /** Inserts `x` just before the first entry it orders before. */
  function Insert<R(!new)>(s: seq<Entry<R>>, x: Entry<R>, le: (Entry<R>, Entry<R>) -> bool): (r: seq<Entry<R>>)
    ensures |r| == |s| + 1
    ensures forall e :: e in r <==> e in s || e == x
    decreases |s|
  {
    if |s| == 0 then [x]
    else if le(x, s[0]) then [x] + s
    else [s[0]] + Insert(s[1..], x, le)
  }

  lemma {:induction false} InsertSorted<R(!new)>(s: seq<Entry<R>>, x: Entry<R>, le: (Entry<R>, Entry<R>) -> bool)
    requires IsTotalOrder(le) && SortedBy(s, le)
    ensures SortedBy(Insert(s, x, le), le)
    decreases |s|
  {
    if |s| > 0 && !le(x, s[0]) {
      var tail := s[1..];
      assert SortedBy(tail, le) by {
        forall i, j | 0 <= i < j < |tail| ensures le(tail[i], tail[j]) {
          assert tail[i] == s[i + 1] && tail[j] == s[j + 1];
        }
      }
      InsertSorted(tail, x, le);
      var rest := Insert(tail, x, le);
      assert le(s[0], x);
      forall e | e in rest ensures le(s[0], e) {
        if e != x {
          var j :| 0 <= j < |tail| && tail[j] == e;
          assert s[j + 1] == e;
        }
      }
      var r := [s[0]] + rest;
      forall i, j | 0 <= i < j < |r| ensures le(r[i], r[j]) {
        if i > 0 {
          assert r[i] == rest[i - 1] && r[j] == rest[j - 1];
        } else {
          assert r[j] == rest[j - 1];
          assert rest[j - 1] in rest;
        }
      }
    } else if |s| > 0 {
      var r := [x] + s;
      forall i, j | 0 <= i < j < |r| ensures le(r[i], r[j]) {
        if i > 0 {
          assert r[i] == s[i - 1] && r[j] == s[j - 1];
        } else {
          assert r[j] == s[j - 1];
          if j > 1 {
            assert le(s[0], s[j - 1]);
          }
        }
      }
    }
  }

  lemma {:induction false} InsertDistinct<R(!new)>(s: seq<Entry<R>>, x: Entry<R>, le: (Entry<R>, Entry<R>) -> bool)
    requires DistinctIds(s)
    requires forall e :: e in s ==> e.id != x.id
    ensures DistinctIds(Insert(s, x, le))
    decreases |s|
  {
    if |s| > 0 && !le(x, s[0]) {
      var tail := s[1..];
      assert forall e :: e in tail ==> e in s;
      assert DistinctIds(tail) by {
        forall i, j | 0 <= i < j < |tail| ensures tail[i].id != tail[j].id {
          assert tail[i] == s[i + 1] && tail[j] == s[j + 1];
        }
      }
      InsertDistinct(tail, x, le);
      var rest := Insert(tail, x, le);
      forall e | e in rest ensures e.id != s[0].id {
        if e != x {
          var j :| 0 <= j < |tail| && tail[j] == e;
          assert s[j + 1] == e;
        } else {
          assert s[0] in s;
        }
      }
      var r := [s[0]] + rest;
      forall i, j | 0 <= i < j < |r| ensures r[i].id != r[j].id {
        if i > 0 {
          assert r[i] == rest[i - 1] && r[j] == rest[j - 1];
        } else {
          assert r[j] == rest[j - 1];
          assert rest[j - 1] in rest;
        }
      }
    } else if |s| > 0 {
      var r := [x] + s;
      forall i, j | 0 <= i < j < |r| ensures r[i].id != r[j].id {
        if i > 0 {
          assert r[i] == s[i - 1] && r[j] == s[j - 1];
        } else {
          assert r[j] == s[j - 1];
          assert s[j - 1] in s;
        }
      }
    }
  }

  /** The part of `t` whose ids are in `ids`. */
  function Restrict<R>(t: map<string, R>, ids: set<string>): (u: map<string, R>)
    ensures forall id :: id in u <==> id in t && id in ids
    ensures forall id :: id in u ==> u[id] == t[id]
  {
    map id | id in t && id in ids :: t[id]
  }

  /** Adding one more row of the table to a listing of part of it. */
  lemma AddToListing<R(!new)>(s: seq<Entry<R>>, t: map<string, R>, done: set<string>, id: string,
                              keep: R -> bool, le: (Entry<R>, Entry<R>) -> bool)
    requires IsTotalOrder(le) && id in t && id !in done
    requires IsListing(s, Restrict(t, done), keep, le)
    ensures var s' := if keep(t[id]) then Insert(s, Entry(id, t[id]), le) else s;
      IsListing(s', Restrict(t, done + {id}), keep, le)
  {
    if keep(t[id]) {
      InsertSorted(s, Entry(id, t[id]), le);
      InsertDistinct(s, Entry(id, t[id]), le);
    }
  }

  /** Every table has a listing (built by insertion, one row at a time). */
  ghost function BuildListing<R(!new)>(t: map<string, R>, done: set<string>, keep: R -> bool, le: (Entry<R>, Entry<R>) -> bool): (s: seq<Entry<R>>)
    requires IsTotalOrder(le)
    ensures IsListing(s, Restrict(t, done), keep, le)
    decreases |done|
  {
    if done == {} then
      assert Restrict(t, done) == map[];
      []
    else
      var id :| id in done;
      var rest := BuildListing(t, done - {id}, keep, le);
      if id in t then
        AddToListing(rest, t, done - {id}, id, keep, le);
        assert done - {id} + {id} == done;
        if keep(t[id]) then Insert(rest, Entry(id, t[id]), le) else rest
      else
        assert Restrict(t, done) == Restrict(t, done - {id});
        rest
  }

  /** Dropping the first entry of a listing lists the table without that row. */
  lemma TailListing<R(!new)>(s: seq<Entry<R>>, t: map<string, R>, keep: R -> bool, le: (Entry<R>, Entry<R>) -> bool)
    requires |s| > 0 && IsListing(s, t, keep, le)
    ensures IsListing(s[1..], t - {s[0].id}, keep, le)
  {
    var tail, t' := s[1..], t - {s[0].id};
    forall e | e in tail ensures e.id in t' && t'[e.id] == e.row && keep(e.row) {
      var k :| 0 <= k < |tail| && tail[k] == e;
      assert s[k + 1] == e;
    }
    forall id | id in t' && keep(t'[id]) ensures Entry(id, t'[id]) in tail {
      var k :| 0 <= k < |s| && s[k] == Entry(id, t[id]);
      assert s[k - 1 + 1] == tail[k - 1];
    }
    forall x, y | 0 <= x < y < |tail| ensures le(tail[x], tail[y]) && tail[x].id != tail[y].id {
      assert tail[x] == s[x + 1] && tail[y] == s[y + 1];
    }
  }

  /** The first entry of a listing is ordered before every row it lists. */
  lemma HeadIsLeast<R(!new)>(s: seq<Entry<R>>, t: map<string, R>, keep: R -> bool, le: (Entry<R>, Entry<R>) -> bool, e: Entry<R>)
    requires IsTotalOrder(le)
    requires |s| > 0 && IsListing(s, t, keep, le) && e in s
    ensures le(s[0], e)
  {
    var i :| 0 <= i < |s| && s[i] == e;
    if i > 0 {
      assert le(s[0], s[i]);
    }
  }

  /** Two listings of the same table under the same total order are equal. */
  lemma {:induction false} ListingUnique<R(!new)>(s1: seq<Entry<R>>, s2: seq<Entry<R>>, t: map<string, R>,
                                                  keep: R -> bool, le: (Entry<R>, Entry<R>) -> bool)
    requires IsTotalOrder(le)
    requires IsListing(s1, t, keep, le) && IsListing(s2, t, keep, le)
    ensures s1 == s2
    decreases |s1|
  {
    ListingCount(s1, t, keep, le);
    ListingCount(s2, t, keep, le);
    if |s1| > 0 {
      var a := s1[0];
      assert a in s1;
      assert Entry(a.id, t[a.id]) in s2;
      var b := s2[0];
      assert b in s2;
      assert Entry(b.id, t[b.id]) in s1;
      HeadIsLeast(s1, t, keep, le, b);
      HeadIsLeast(s2, t, keep, le, a);
      assert a == b;
      TailListing(s1, t, keep, le);
      TailListing(s2, t, keep, le);
      ListingUnique(s1[1..], s2[1..], t - {a.id}, keep, le);
      assert s1 == [a] + s1[1..] && s2 == [b] + s2[1..];
    }
  }

  /** The listing of `t`: the rows `keep` selects, in `le` order. */
  ghost function Listed<R(!new)>(t: map<string, R>, keep: R -> bool, le: (Entry<R>, Entry<R>) -> bool): (s: seq<Entry<R>>)
    requires IsTotalOrder(le)
    ensures IsListing(s, t, keep, le)
  {
    assert Restrict(t, t.Keys) == t;
    BuildListing(t, t.Keys, keep, le)
  }

  /** The ids of a listing, as a set. */
  function IdSet<R>(s: seq<Entry<R>>): set<string>
    decreases |s|
  {
    if |s| == 0 then {} else {s[0].id} + IdSet(s[1..])
  }

  /** The set holds exactly the ids of the entries. */
  lemma {:induction false} IdSetMembers<R(!new)>(s: seq<Entry<R>>)
    ensures forall id :: id in IdSet(s) <==> exists e :: e in s && e.id == id
    decreases |s|
  {
    if |s| > 0 {
      IdSetMembers(s[1..]);
      assert forall e :: e in s <==> e == s[0] || e in s[1..];
    }
  }

  /** Distinct ids give a set as large as the listing. */
  lemma {:induction false} IdSetSize<R(!new)>(s: seq<Entry<R>>)
    requires DistinctIds(s)
    ensures |IdSet(s)| == |s|
    decreases |s|
  {
    if |s| > 0 {
      var tail := s[1..];
      assert DistinctIds(tail) by {
        forall i, j | 0 <= i < j < |tail| ensures tail[i].id != tail[j].id {
          assert tail[i] == s[i + 1] && tail[j] == s[j + 1];
        }
      }
      IdSetSize(tail);
      IdSetMembers(tail);
      assert s[0].id !in IdSet(tail) by {
        forall e | e in tail ensures e.id != s[0].id {
          var k :| 0 <= k < |tail| && tail[k] == e;
          assert s[k + 1] == e;
        }
      }
    }
  }

  /** A listing has one entry per selected row: its length is the count of matching ids. */
  lemma ListingCount<R(!new)>(s: seq<Entry<R>>, t: map<string, R>, keep: R -> bool, le: (Entry<R>, Entry<R>) -> bool)
    requires IsListing(s, t, keep, le)
    ensures |s| == |MatchingIds(t, keep)|
  {
    IdSetSize(s);
    IdSetMembers(s);
    assert IdSet(s) == MatchingIds(t, keep) by {
      forall id | id in MatchingIds(t, keep) ensures id in IdSet(s) {
        assert Entry(id, t[id]) in s;
      }
    }
  }

  /**
   * The store's select: walks the table's ids one at a time and inserts each
   * selected row into the ordered result.
   */
  method SelectSorted<R(!new)>(t: map<string, R>, keep: R -> bool, le: (Entry<R>, Entry<R>) -> bool)
    returns (out: seq<Entry<R>>)
    requires IsTotalOrder(le)
    ensures out == Listed(t, keep, le)
    ensures |out| == |MatchingIds(t, keep)|
  {
    out := [];
    var todo := t.Keys;
    assert Restrict(t, t.Keys - todo) == map[];
    while todo != {}
      invariant todo <= t.Keys
      invariant IsListing(out, Restrict(t, t.Keys - todo), keep, le)
      decreases |todo|
    {
      var id :| id in todo;
      AddToListing(out, t, t.Keys - todo, id, keep, le);
      if keep(t[id]) {
        out := Insert(out, Entry(id, t[id]), le);
      }
      assert t.Keys - todo + {id} == t.Keys - (todo - {id});
      todo := todo - {id};
    }
    assert Restrict(t, t.Keys) == t;
    ListingUnique(out, Listed(t, keep, le), t, keep, le);
    ListingCount(out, t, keep, le);
  }

  // ----- Sub-listings -----------------------------------------------------

  /** The entries of `s` whose row passes `p`, in their order in `s`. */
  function Filter<R(!new)>(s: seq<Entry<R>>, p: R -> bool): (r: seq<Entry<R>>)
    ensures forall e :: e in r <==> e in s && p(e.row)
    ensures |r| <= |s|
    decreases |s|
  {
    if |s| == 0 then []
    else
      var init, last := s[..|s| - 1], s[|s| - 1];
      assert forall e :: e in s <==> e in init || e == last;
      Filter(init, p) + (if p(last.row) then [last] else [])
  }

  /** Filtering one more entry appends it when it passes. */
  lemma FilterSnoc<R(!new)>(s: seq<Entry<R>>, x: Entry<R>, p: R -> bool)
    ensures Filter(s + [x], p) == Filter(s, p) + (if p(x.row) then [x] else [])
  {
    assert (s + [x])[..|s|] == s;
  }

  /** Filtering keeps the order and the distinct ids of a sequence. */
  lemma {:induction false} FilterKeepsOrder<R(!new)>(s: seq<Entry<R>>, p: R -> bool, le: (Entry<R>, Entry<R>) -> bool)
    requires SortedBy(s, le) && DistinctIds(s)
    ensures SortedBy(Filter(s, p), le) && DistinctIds(Filter(s, p))
    decreases |s|
  {
    if |s| > 0 {
      var init, last := s[..|s| - 1], s[|s| - 1];
      assert SortedBy(init, le) && DistinctIds(init) by {
        forall i, j | 0 <= i < j < |init| ensures le(init[i], init[j]) && init[i].id != init[j].id {
          assert init[i] == s[i] && init[j] == s[j];
        }
      }
      FilterKeepsOrder(init, p, le);
      var f := Filter(init, p);
      if p(last.row) {
        var r := f + [last];
        forall i, j | 0 <= i < j < |r| ensures le(r[i], r[j]) && r[i].id != r[j].id {
          if j < |f| {
            assert r[i] == f[i] && r[j] == f[j];
          } else {
            assert r[i] == f[i] && f[i] in f;
            var k :| 0 <= k < |init| && init[k] == r[i];
            assert s[k] == r[i] && s[|s| - 1] == r[j];
          }
        }
      }
    }
  }

  /**
   * The entries of a listing that pass a narrower filter are the listing
   * under that filter: grouping a sorted select keeps each group sorted.
   */
  lemma FilterListing<R(!new)>(s: seq<Entry<R>>, t: map<string, R>, keep: R -> bool, p: R -> bool,
                         le: (Entry<R>, Entry<R>) -> bool)
    requires IsListing(s, t, keep, le)
    requires forall r :: p(r) ==> keep(r)
    ensures IsListing(Filter(s, p), t, p, le)
  {
    FilterKeepsOrder(s, p, le);
  }

  /** `.limit(limit).offset(offset)`: at most `limit` entries, starting at `offset`. */
  function Page<T>(s: seq<T>, offset: nat, limit: nat): (p: seq<T>)
    ensures |p| == if offset >= |s| then 0 else if offset + limit <= |s| then limit else |s| - offset
    ensures forall i :: 0 <= i < |p| ==> p[i] == s[offset + i]
  {
    if offset >= |s| then [] else if offset + limit <= |s| then s[offset..offset + limit] else s[offset..]
  }

  /** Two consecutive pages make up the page that spans both. */
  lemma PagesTile<T>(s: seq<T>, offset: nat, limit1: nat, limit2: nat)
    ensures Page(s, offset, limit1) + Page(s, offset + limit1, limit2) == Page(s, offset, limit1 + limit2)
  {
    var a, b, c := Page(s, offset, limit1), Page(s, offset + limit1, limit2), Page(s, offset, limit1 + limit2);
    assert |a + b| == |c|;
    forall i | 0 <= i < |c| ensures (a + b)[i] == c[i] {
      if i >= |a| {
        assert (a + b)[i] == b[i - |a|];
      }
    }
  }

  // ----- Orders -----------------------------------------------------------

  /** Code-point order on a text key, then on the id. */
  predicate KeyThenIdLe(ka: string, ia: string, kb: string, ib: string) {
    if ka != kb then LexLe(ka, kb) else LexLe(ia, ib)
  }

  /** The facts about code-point order the orders below need. */
  lemma LexLeFacts()
    ensures forall a, b :: LexLe(a, b) || LexLe(b, a)
    ensures forall a, b, c :: LexLe(a, b) && LexLe(b, c) ==> LexLe(a, c)
    ensures forall a, b :: LexLe(a, b) && LexLe(b, a) ==> a == b
  {
    forall a, b ensures LexLe(a, b) || LexLe(b, a) { LexLeTotal(a, b); }
    forall a, b, c | LexLe(a, b) && LexLe(b, c) ensures LexLe(a, c) { LexLeTransitive(a, b, c); }
    forall a, b | LexLe(a, b) && LexLe(b, a) ensures a == b { LexLeAntisymmetric(a, b); }
  }

  /** `.order(key)`, with ties between equal keys broken by id. */
  function ByKey<R>(key: R -> string): (Entry<R>, Entry<R>) -> bool {
    (a: Entry<R>, b: Entry<R>) => KeyThenIdLe(key(a.row), a.id, key(b.row), b.id)
  }

  /** A listing ordered by a key has its keys in code-point order. */
  lemma ByKeySortedKeys<R>(s: seq<Entry<R>>, key: R -> string)
    requires SortedBy(s, ByKey(key))
    ensures forall i, j :: 0 <= i < j < |s| ==> LexLe(key(s[i].row), key(s[j].row))
  {
    forall i, j | 0 <= i < j < |s| ensures LexLe(key(s[i].row), key(s[j].row)) {
      assert ByKey(key)(s[i], s[j]);
      if key(s[i].row) == key(s[j].row) {
        LexLeReflexive(key(s[i].row));
      }
    }
  }

  /** Ordering by one text key and then by id is a total order on entries. */
  lemma KeyThenIdIsTotalOrder<R(!new)>(key: R -> string)
    ensures IsTotalOrder(ByKey(key))
  {
    var le := ByKey(key);
    LexLeFacts();
    forall a, b ensures le(a, b) || le(b, a) {
      assert KeyThenIdLe(key(a.row), a.id, key(b.row), b.id) || KeyThenIdLe(key(b.row), b.id, key(a.row), a.id);
    }
    forall a, b, c | le(a, b) && le(b, c) ensures le(a, c) {
      var ka, kb, kc := key(a.row), key(b.row), key(c.row);
      assert KeyThenIdLe(ka, a.id, kb, b.id) && KeyThenIdLe(kb, b.id, kc, c.id);
      if ka == kb && kb == kc {
        assert LexLe(a.id, c.id);
      } else if ka == kb {
        assert LexLe(ka, kc) && ka != kc;
      } else if kb == kc {
        assert LexLe(ka, kc) && ka != kc;
      } else {
        assert LexLe(ka, kc) && ka != kc;
      }
    }
    forall a, b | le(a, b) && le(b, a) ensures a.id == b.id {
      assert key(a.row) == key(b.row);
    }
  }

  /** Later times first, then code-point order on the id. */
  predicate NewerThenIdLe(ta: nat, ia: string, tb: nat, ib: string) {
    if ta != tb then ta > tb else LexLe(ia, ib)
  }

  /** `.order(time, desc=True)`, with ties broken by id. */
  function ByNewest<R>(time: R -> nat): (Entry<R>, Entry<R>) -> bool {
    (a: Entry<R>, b: Entry<R>) => NewerThenIdLe(time(a.row), a.id, time(b.row), b.id)
  }

  lemma NewestFirstIsTotalOrder<R(!new)>(time: R -> nat)
    ensures IsTotalOrder(ByNewest(time))
  {
    var le := ByNewest(time);
    LexLeFacts();
    forall a, b ensures le(a, b) || le(b, a) {
      assert NewerThenIdLe(time(a.row), a.id, time(b.row), b.id) || NewerThenIdLe(time(b.row), b.id, time(a.row), a.id);
    }
    forall a, b, c | le(a, b) && le(b, c) ensures le(a, c) {
      assert NewerThenIdLe(time(a.row), a.id, time(b.row), b.id) && NewerThenIdLe(time(b.row), b.id, time(c.row), c.id);
    }
    forall a, b | le(a, b) && le(b, a) ensures a.id == b.id {
      assert time(a.row) == time(b.row);
    }
  }

  /** A listing ordered newest first has non-increasing times. */
  lemma ByNewestSortedTimes<R>(s: seq<Entry<R>>, time: R -> nat)
    requires SortedBy(s, ByNewest(time))
    ensures forall i, j :: 0 <= i < j < |s| ==> time(s[i].row) >= time(s[j].row)
  {
    forall i, j | 0 <= i < j < |s| ensures time(s[i].row) >= time(s[j].row) {
      assert ByNewest(time)(s[i], s[j]);
    }
  }

  /** Code-point order on a pair of text keys, then on the id. */
  predicate KeyPairThenIdLe(a1: string, a2: string, ia: string, b1: string, b2: string, ib: string) {
    if a1 != b1 then LexLe(a1, b1) else KeyThenIdLe(a2, ia, b2, ib)
  }

  /** `.order("k1,k2")`, with ties broken by id. */
  function ByTwoKeys<R>(key1: R -> string, key2: R -> string): (Entry<R>, Entry<R>) -> bool {
    (a: Entry<R>, b: Entry<R>) => KeyPairThenIdLe(key1(a.row), key2(a.row), a.id, key1(b.row), key2(b.row), b.id)
  }

  lemma TwoKeysThenIdIsTotalOrder<R(!new)>(key1: R -> string, key2: R -> string)
    ensures IsTotalOrder(ByTwoKeys(key1, key2))
  {
    var le := ByTwoKeys(key1, key2);
    KeyThenIdIsTotalOrder(key2);
    var inner := ByKey(key2);
    LexLeFacts();
    forall a, b ensures le(a, b) || le(b, a) {
      assert inner(a, b) || inner(b, a);
    }
    forall a, b, c | le(a, b) && le(b, c) ensures le(a, c) {
      var ka, kb, kc := key1(a.row), key1(b.row), key1(c.row);
      if ka == kb && kb == kc {
        assert inner(a, b) && inner(b, c);
      } else if ka == kb {
        assert LexLe(ka, kc) && ka != kc;
      } else if kb == kc {
        assert LexLe(ka, kc) && ka != kc;
      } else {
        assert LexLe(ka, kc) && ka != kc;
      }
    }
    forall a, b | le(a, b) && le(b, a) ensures a.id == b.id {
      assert key1(a.row) == key1(b.row);
      assert inner(a, b) && inner(b, a);
    }
  }

  // ----- Selects without ORDER BY -----------------------------------------

  function NoKey<R>(r: R): string { "" }

  /**
   * A select without ORDER BY: each selected row once, in an order the store
   * picks. (This one happens to walk the ids in code-point order; callers
   * rely on nothing but the ensures.)
   */
  method Select<R(!new)>(t: map<string, R>, keep: R -> bool) returns (out: seq<Entry<R>>)
    ensures ListsExactly(out, t, keep) && DistinctIds(out)
    ensures |out| == |MatchingIds(t, keep)|
  {
    KeyThenIdIsTotalOrder(NoKey<R>);
    out := SelectSorted(t, keep, ByKey(NoKey<R>));
  }

  /** A select returns some row exactly when some row passes the filter. */
  lemma SelectionNonEmpty<R>(s: seq<Entry<R>>, t: map<string, R>, keep: R -> bool)
    requires ListsExactly(s, t, keep)
    ensures |s| > 0 <==> exists id :: id in t && keep(t[id])
  {
    if |s| > 0 {
      assert s[0] in s;
    }
    if exists id :: id in t && keep(t[id]) {
      var id :| id in t && keep(t[id]);
      assert Entry(id, t[id]) in s;
    }
  }

  /** `{row["id"]: row for row in s}`: a later entry with the same id wins. */
  function IdMap<R(!new)>(s: seq<Entry<R>>): (m: map<string, R>)
    ensures forall id :: id in m <==> exists e :: e in s && e.id == id
    decreases |s|
  {
    if |s| == 0 then map[]
    else
      var init := s[..|s| - 1];
      assert forall e :: e in s <==> e in init || e == s[|s| - 1];
      IdMap(init)[s[|s| - 1].id := s[|s| - 1].row]
  }

  /** The id map of a select is the selected part of the table. */
  lemma {:induction false} IdMapOfSelection<R(!new)>(s: seq<Entry<R>>, t: map<string, R>, keep: R -> bool)
    requires ListsExactly(s, t, keep)
    ensures forall id :: id in IdMap(s) <==> id in t && keep(t[id])
    ensures forall id :: id in IdMap(s) ==> IdMap(s)[id] == t[id]
  {
    forall id | id in t && keep(t[id]) ensures id in IdMap(s) {
      assert Entry(id, t[id]) in s;
    }
    IdMapRows(s);
  }

  /** Every value of an id map is the row of an entry with that id. */
  lemma {:induction false} IdMapRows<R(!new)>(s: seq<Entry<R>>)
    ensures forall id :: id in IdMap(s) ==> Entry(id, IdMap(s)[id]) in s
    decreases |s|
  {
    if |s| > 0 {
      var init := s[..|s| - 1];
      IdMapRows(init);
      assert forall e :: e in init ==> e in s;
    }
  }
}
