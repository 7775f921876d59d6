/**
 * The buyer table as the routes see it through `prisma.buyer.count` and
 * `prisma.buyer.findMany`: a sequence of stored records, filtered by an
 * equality map over record fields, ordered newest first by `updatedAt`, and
 * cut into a `skip`/`take` window.
 */
module Store {
  import opened Wrappers
  import opened Tables

  /** A stored buyer: its id, its last update time and its fields. */
  datatype Buyer = Buyer(id: nat, updatedAt: int, row: BuyerRow)

  /** An equality filter (`where`): field name to required value. */
  type Where = map<string, string>

  /** The value a filterable field of a record holds; the list route filters on these four. */
  function FieldValue(row: BuyerRow, field: string): Option<string> {
    if field == "city" then Some(row.city)
    else if field == "propertyType" then Some(row.propertyType)
    else if field == "status" then Some(row.status)
    else if field == "timeline" then Some(row.timeline)
    else None
  }

  /** The record satisfies every equality of the filter. */
  predicate Matches(b: Buyer, where: Where) {
    forall f :: f in where ==> FieldValue(b.row, f) == Some(where[f])
  }

  /** The records that satisfy the filter, in table order. */
  function Matching(table: seq<Buyer>, where: Where): (r: seq<Buyer>)
    ensures |r| <= |table|
    ensures forall i :: 0 <= i < |r| ==> Matches(r[i], where) && r[i] in table
    ensures forall b :: b in table && Matches(b, where) ==> b in r
  {
    if |table| == 0 then []
    else
      var rest := Matching(table[1..], where);
      assert forall b :: b in table[1..] ==> b in table;
      if Matches(table[0], where) then [table[0]] + rest else rest
  }

  /** Each record of the table is kept as often as it occurs when it matches, and dropped otherwise. */
  lemma {:induction false} MatchingCounts(table: seq<Buyer>, where: Where)
    ensures forall b :: multiset(Matching(table, where))[b] == if Matches(b, where) then multiset(table)[b] else 0
  {
    if |table| > 0 {
      MatchingCounts(table[1..], where);
      assert table == [table[0]] + table[1..];
    }
  }

  /** `prisma.buyer.count({ where })`. */
  function Count(table: seq<Buyer>, where: Where): nat {
    |Matching(table, where)|
  }

  /** Ordered by `updatedAt`, newest first. */
  predicate NewestFirst(s: seq<Buyer>) {
    forall i, j :: 0 <= i < j < |s| ==> s[i].updatedAt >= s[j].updatedAt
  }

  /** `b` placed into a newest-first sequence before the first record that is not newer. */
  function Insert(b: Buyer, s: seq<Buyer>): (r: seq<Buyer>)
    requires NewestFirst(s)
    ensures |r| == |s| + 1
    ensures r[0] == b || (|s| > 0 && r[0] == s[0])
    ensures NewestFirst(r)
    ensures multiset(r) == multiset(s) + multiset{b}
  {
    if |s| == 0 then [b]
    else if b.updatedAt >= s[0].updatedAt then
      ConsNewestFirst(b, s);
      [b] + s
    else
      var rest := Insert(b, s[1..]);
      ConsNewestFirst(s[0], rest);
      assert s == [s[0]] + s[1..];
      [s[0]] + rest
  }

  /** A record no older than the head of a newest-first sequence can go in front of it. */
  lemma ConsNewestFirst(b: Buyer, s: seq<Buyer>)
    requires NewestFirst(s)
    requires |s| > 0 ==> b.updatedAt >= s[0].updatedAt
    ensures NewestFirst([b] + s)
  {
    var r := [b] + s;
    forall i, j | 0 <= i < j < |r|
      ensures r[i].updatedAt >= r[j].updatedAt
    {
      if i == 0 {
        assert r[j] == s[j - 1];
        assert s[0].updatedAt >= s[j - 1].updatedAt || j == 1;
      } else {
        assert r[i] == s[i - 1] && r[j] == s[j - 1];
      }
    }
  }

  /** The records ordered newest first (`orderBy: { updatedAt: "desc" }`); ties keep table order. */
  function SortNewest(s: seq<Buyer>): (r: seq<Buyer>)
    ensures NewestFirst(r)
    ensures multiset(r) == multiset(s)
    ensures |r| == |s|
  {
    if |s| == 0 then []
    else
      assert s == [s[0]] + s[1..];
      Insert(s[0], SortNewest(s[1..]))
  }

  /** The `take` records after the first `skip`; empty when `skip` is past the end. */
  function Window(s: seq<Buyer>, skip: nat, take: nat): (r: seq<Buyer>)
    ensures |r| <= take
    ensures skip >= |s| ==> |r| == 0
    ensures skip < |s| ==> |r| == if skip + take <= |s| then take else |s| - skip
    ensures forall i :: 0 <= i < |r| ==> r[i] == s[skip + i]
  {
    if skip >= |s| then [] else if skip + take <= |s| then s[skip..skip + take] else s[skip..]
  }

  /** `prisma.buyer.findMany({ where, skip, take, orderBy: { updatedAt: "desc" } })`. */
  function FindMany(table: seq<Buyer>, where: Where, skip: nat, take: nat): seq<Buyer> {
    Window(SortNewest(Matching(table, where)), skip, take)
  }

  /** A window of a newest-first sequence is itself newest first. */
  lemma WindowNewestFirst(s: seq<Buyer>, skip: nat, take: nat)
    requires NewestFirst(s)
    ensures NewestFirst(Window(s, skip, take))
  {
    var r := Window(s, skip, take);
    forall i, j | 0 <= i < j < |r|
      ensures r[i].updatedAt >= r[j].updatedAt
    {
      assert r[i] == s[skip + i] && r[j] == s[skip + j];
    }
  }

  /**
   * What `findMany` returns: at most `take` records, each matching the
   * filter and in the table, newest first, and exactly the newest-first
   * matching records from position `skip` on.
   */
  lemma FindManyMeans(table: seq<Buyer>, where: Where, skip: nat, take: nat)
    ensures var r := FindMany(table, where, skip, take);
      && |r| <= take
      && NewestFirst(r)
      && (forall i :: 0 <= i < |r| ==> Matches(r[i], where) && r[i] in table)
      && (skip >= Count(table, where) ==> |r| == 0)
      && (skip < Count(table, where) ==> |r| == Min(take, Count(table, where) - skip))
      && (forall i :: 0 <= i < |r| ==> r[i] == SortNewest(Matching(table, where))[skip + i])
  {
    var m := Matching(table, where);
    var sorted := SortNewest(m);
    var r := Window(sorted, skip, take);
    WindowNewestFirst(sorted, skip, take);
    forall i | 0 <= i < |r|
      ensures Matches(r[i], where) && r[i] in table
    {
      assert r[i] == sorted[skip + i];
      assert sorted[skip + i] in multiset(m);
    }
  }

  function Min(a: nat, b: nat): nat {
    if a <= b then a else b
  }

  /**
   * Consecutive windows of one size cover the ordered records: windows
   * `0 .. n - 1` (window `p` starting at `p * take`) put end to end are the
   * first `n * take` records, or all of them when there are fewer.
   */
  lemma {:induction false} PagesCover(s: seq<Buyer>, take: nat, n: nat)
    ensures Pages(s, take, n) == s[..Min(n * take, |s|)]
  {
    if n > 0 {
      var lo := (n - 1) * take;
      assert lo + take == n * take;
      PagesCover(s, take, n - 1);
      if lo < |s| {
        assert s[..Min(n * take, |s|)] == s[..lo] + s[lo..Min(n * take, |s|)];
      }
    }
  }

  /** The first `n` windows of size `take`, put end to end. */
  function Pages(s: seq<Buyer>, take: nat, n: nat): seq<Buyer> {
    if n == 0 then [] else Pages(s, take, n - 1) + Window(s, (n - 1) * take, take)
  }
}
