/**
 * The filter hook of app/utils/hooks/useUrlFilters.ts: the list page keeps
 * its filters in the URL query, reads the four of them back with `""` for a
 * missing one, and changes them by copying the query, setting or deleting
 * entries and navigating to the result.
 */
module UrlFilters {
  import opened Wrappers

  /** One `name=value` entry of a query string. */
  datatype Pair = Pair(name: string, value: string)

  // ------------------------------------------- the query as a list of pairs

  /** `get(name)`: the value of the first entry with that name. */
  function First(pairs: seq<Pair>, name: string): (r: Option<string>)
    ensures r.None? <==> forall i :: 0 <= i < |pairs| ==> pairs[i].name != name
    ensures r.Some? ==> exists i :: 0 <= i < |pairs| && pairs[i] == Pair(name, r.value) && FirstOfName(pairs, name, i)
  {
    if |pairs| == 0 then None
    else if pairs[0].name == name then Some(pairs[0].value)
    else
      var r := First(pairs[1..], name);
      assert forall j :: 0 <= j < |pairs| - 1 ==> pairs[1..][j] == pairs[j + 1];
      r
  }

  /** No entry before position `i` carries the name. */
  predicate FirstOfName(pairs: seq<Pair>, name: string, i: nat) {
    forall j :: 0 <= j < i && j < |pairs| ==> pairs[j].name != name
  }

  /** How many entries carry the name. */
  function Occurrences(pairs: seq<Pair>, name: string): nat {
    if |pairs| == 0 then 0 else (if pairs[0].name == name then 1 else 0) + Occurrences(pairs[1..], name)
  }

  /** `delete(name)`: every entry with that name removed, the others in order. */
  function Removed(pairs: seq<Pair>, name: string): (r: seq<Pair>)
    ensures |r| <= |pairs|
    ensures forall p {:trigger p in r} :: p in r <==> p in pairs && p.name != name
  {
    if |pairs| == 0 then []
    else if pairs[0].name == name then Removed(pairs[1..], name)
    else [pairs[0]] + Removed(pairs[1..], name)
  }

  /**
   * `set(name, value)`: the first entry with that name takes the value in
   * place and the later ones are removed; with none, the entry is appended.
   */
  function Assigned(pairs: seq<Pair>, name: string, value: string): (r: seq<Pair>)
    ensures Pair(name, value) in r
  {
    if |pairs| == 0 then [Pair(name, value)]
    else if pairs[0].name == name then [Pair(name, value)] + Removed(pairs[1..], name)
    else [pairs[0]] + Assigned(pairs[1..], name, value)
  }

  /** `delete` works entry by entry: the kept entries of a concatenation are those of each part, in order. */
  lemma {:induction false} RemovedAppend(a: seq<Pair>, b: seq<Pair>, name: string)
    ensures Removed(a + b, name) == Removed(a, name) + Removed(b, name)
  {
    if |a| == 0 {
      assert a + b == b;
    } else {
      var ab := a + b;
      assert ab[0] == a[0] && ab[1..] == a[1..] + b;
      RemovedAppend(a[1..], b, name);
      if a[0].name == name {
        assert Removed(ab, name) == Removed(a[1..] + b, name);
        assert Removed(a, name) == Removed(a[1..], name);
      } else {
        assert Removed(ab, name) == [a[0]] + Removed(a[1..] + b, name);
        assert Removed(a, name) == [a[0]] + Removed(a[1..], name);
      }
    }
  }

  /**
   * `set` where the name first occurs at the head of `b`: everything before
   * stays, that entry takes the value in place, and later entries of the
   * name go.
   */
  lemma {:induction false} AssignedInPlace(a: seq<Pair>, b: seq<Pair>, name: string, value: string)
    requires Occurrences(a, name) == 0 && |b| > 0 && b[0].name == name
    ensures Assigned(a + b, name, value) == a + [Pair(name, value)] + Removed(b[1..], name)
  {
    if |a| == 0 {
      assert a + b == b;
    } else {
      var ab := a + b;
      assert ab[0] == a[0] && ab[1..] == a[1..] + b;
      assert a[0].name != name;
      AssignedInPlace(a[1..], b, name, value);
      assert Assigned(ab, name, value) == [a[0]] + Assigned(a[1..] + b, name, value);
      assert a == [a[0]] + a[1..];
    }
  }

  /** `set` of a name that does not occur appends the entry at the end. */
  lemma {:induction false} AssignedAppends(pairs: seq<Pair>, name: string, value: string)
    requires Occurrences(pairs, name) == 0
    ensures Assigned(pairs, name, value) == pairs + [Pair(name, value)]
  {
    if |pairs| > 0 {
      AssignedAppends(pairs[1..], name, value);
    }
  }

  /** After `set`, the name reads back as the value and occurs once. */
  lemma {:induction false} AssignedReadsBack(pairs: seq<Pair>, name: string, value: string)
    ensures First(Assigned(pairs, name, value), name) == Some(value)
    ensures Occurrences(Assigned(pairs, name, value), name) == 1
  {
    if |pairs| > 0 {
      if pairs[0].name == name {
        RemovedAbsent(pairs[1..], name);
        var r := Assigned(pairs, name, value);
        assert r[1..] == Removed(pairs[1..], name);
      } else {
        AssignedReadsBack(pairs[1..], name, value);
        var r := Assigned(pairs, name, value);
        assert r[1..] == Assigned(pairs[1..], name, value);
      }
    }
  }

  /** After `delete`, the name is gone. */
  lemma {:induction false} RemovedAbsent(pairs: seq<Pair>, name: string)
    ensures First(Removed(pairs, name), name).None?
    ensures Occurrences(Removed(pairs, name), name) == 0
  {
    if |pairs| > 0 {
      RemovedAbsent(pairs[1..], name);
      if pairs[0].name != name {
        var r := Removed(pairs, name);
        assert r[1..] == Removed(pairs[1..], name);
      }
    }
  }

  /** `set` and `delete` leave every other name reading as before. */
  lemma {:induction false} OtherNamesUnchanged(pairs: seq<Pair>, name: string, value: string, other: string)
    requires other != name
    ensures First(Assigned(pairs, name, value), other) == First(pairs, other)
    ensures First(Removed(pairs, name), other) == First(pairs, other)
  {
    if |pairs| > 0 {
      OtherNamesUnchanged(pairs[1..], name, value, other);
      if pairs[0].name == name {
        var r := Assigned(pairs, name, value);
        assert r[1..] == Removed(pairs[1..], name);
      } else {
        var r := Assigned(pairs, name, value);
        assert r[1..] == Assigned(pairs[1..], name, value);
        var d := Removed(pairs, name);
        assert d[1..] == Removed(pairs[1..], name);
      }
    }
  }

  /** `set` and `delete` leave the number of entries of every other name as it was. */
  lemma {:induction false} OtherCountsUnchanged(pairs: seq<Pair>, name: string, value: string, other: string)
    requires other != name
    ensures Occurrences(Assigned(pairs, name, value), other) == Occurrences(pairs, other)
    ensures Occurrences(Removed(pairs, name), other) == Occurrences(pairs, other)
  {
    if |pairs| > 0 {
      OtherCountsUnchanged(pairs[1..], name, value, other);
      var r := Assigned(pairs, name, value);
      var d := Removed(pairs, name);
      if pairs[0].name == name {
        assert r[1..] == Removed(pairs[1..], name);
      } else {
        assert r[1..] == Assigned(pairs[1..], name, value);
        assert d[1..] == Removed(pairs[1..], name);
      }
    }
  }

  /** Deleting a name that does not occur changes nothing. */
  lemma {:induction false} RemovedAbsentName(pairs: seq<Pair>, name: string)
    requires Occurrences(pairs, name) == 0
    ensures Removed(pairs, name) == pairs
  {
    if |pairs| > 0 {
      RemovedAbsentName(pairs[1..], name);
      assert pairs == [pairs[0]] + pairs[1..];
    }
  }

  /** Setting a name that occurs once, to the value it already has, changes nothing. */
  lemma {:induction false} AssignedSameValue(pairs: seq<Pair>, name: string, value: string)
    requires Occurrences(pairs, name) == 1 && First(pairs, name) == Some(value)
    ensures Assigned(pairs, name, value) == pairs
  {
    assert pairs == [pairs[0]] + pairs[1..];
    if pairs[0].name == name {
      RemovedAbsentName(pairs[1..], name);
    } else {
      AssignedSameValue(pairs[1..], name, value);
    }
  }

  /** Deleting twice is deleting once; setting twice is setting once. */
  lemma {:induction false} RemovedIdempotent(pairs: seq<Pair>, name: string)
    ensures Removed(Removed(pairs, name), name) == Removed(pairs, name)
  {
    if |pairs| > 0 {
      RemovedIdempotent(pairs[1..], name);
      if pairs[0].name != name {
        var r := Removed(pairs, name);
        assert r[1..] == Removed(pairs[1..], name);
      }
    }
  }

  lemma {:induction false} AssignedIdempotent(pairs: seq<Pair>, name: string, value: string)
    ensures Assigned(Assigned(pairs, name, value), name, value) == Assigned(pairs, name, value)
  {
    if |pairs| > 0 {
      if pairs[0].name == name {
        var r := Assigned(pairs, name, value);
        assert r[1..] == Removed(pairs[1..], name);
        RemovedIdempotent(pairs[1..], name);
      } else {
        AssignedIdempotent(pairs[1..], name, value);
        var r := Assigned(pairs, name, value);
        assert r[1..] == Assigned(pairs[1..], name, value);
      }
    }
  }

  // ------------------------------------------------ the URLSearchParams copy

  /** The `URLSearchParams` the hook builds and changes in place. */
  class SearchParams {
    var pairs: seq<Pair>

    /** `new URLSearchParams(searchParams.toString())`: a copy of the current query. */
    constructor (init: seq<Pair>)
      ensures pairs == init
    {
      pairs := init;
    }

    function Get(name: string): Option<string>
      reads this
    {
      First(pairs, name)
    }

    method Set(name: string, value: string)
      modifies this
      ensures pairs == Assigned(old(pairs), name, value)
    {
      pairs := Assigned(pairs, name, value);
    }

    method Delete(name: string)
      modifies this
      ensures pairs == Removed(old(pairs), name)
    {
      pairs := Removed(pairs, name);
    }
  }

  // ------------------------------------------------------------- setFilter

  /** An entry passed to `setFilter`: a name and a value that may be `null` or `undefined` (`None`). */
  datatype Entry = Entry(name: string, value: Option<string>)

  /** What `setFilter` is called with: one name and value, or a record of several. */
  datatype FilterChange = Single(entry: Entry) | Many(entries: seq<Entry>)

  /** JavaScript truthiness of an optional string: present and non-empty. */
  predicate Given(value: Option<string>) {
    value.Some? && value.value != ""
  }

  /** `if (v) params.set(k, v); else params.delete(k)`. */
  function Apply(pairs: seq<Pair>, e: Entry): seq<Pair> {
    if Given(e.value) then Assigned(pairs, e.name, e.value.value) else Removed(pairs, e.name)
  }

  /** The entries applied in order. */
  function ApplyAll(pairs: seq<Pair>, entries: seq<Entry>): seq<Pair> {
    if |entries| == 0 then pairs else Apply(ApplyAll(pairs, entries[..|entries| - 1]), entries[|entries| - 1])
  }

  /** The change, as a function of the current query. */
  function Changed(current: seq<Pair>, change: FilterChange): seq<Pair> {
    match change
    case Single(e) => Apply(current, e)
    case Many(entries) => ApplyAll(current, entries)
  }

  /** `setFilter`: the query it navigates to, as the list of its entries. */
  method SetFilter(current: seq<Pair>, change: FilterChange) returns (query: seq<Pair>)
    ensures query == Changed(current, change)
  {
    var params := new SearchParams(current);
    match change {
      case Single(e) =>
        if Given(e.value) {
          params.Set(e.name, e.value.value);
        } else {
          params.Delete(e.name);
        }
      case Many(entries) =>
        var i := 0;
        while i < |entries|
          invariant 0 <= i <= |entries|
          invariant params.pairs == ApplyAll(current, entries[..i])
        {
          assert entries[..i + 1][..i] == entries[..i];
          var e := entries[i];
          if Given(e.value) {
            params.Set(e.name, e.value.value);
          } else {
            params.Delete(e.name);
          }
          i := i + 1;
        }
        assert entries[..|entries|] == entries;
    }
    query := params.pairs;
  }

  /** After one entry, its name reads back as its value when given and is absent otherwise. */
  lemma ApplyReadsBack(pairs: seq<Pair>, e: Entry)
    ensures First(Apply(pairs, e), e.name) == if Given(e.value) then e.value else None
  {
    if Given(e.value) {
      AssignedReadsBack(pairs, e.name, e.value.value);
    } else {
      RemovedAbsent(pairs, e.name);
    }
  }

  /** The names an entry list mentions. */
  predicate Mentions(entries: seq<Entry>, name: string) {
    exists i :: 0 <= i < |entries| && entries[i].name == name
  }

  /** A name no entry mentions reads as before. */
  lemma {:induction false} ApplyAllOthers(pairs: seq<Pair>, entries: seq<Entry>, name: string)
    requires !Mentions(entries, name)
    ensures First(ApplyAll(pairs, entries), name) == First(pairs, name)
  {
    if |entries| > 0 {
      var init := entries[..|entries| - 1];
      var e := entries[|entries| - 1];
      assert !Mentions(init, name) by {
        forall i | 0 <= i < |init| ensures init[i].name != name {
          assert init[i] == entries[i];
        }
      }
      ApplyAllOthers(pairs, init, name);
      if Given(e.value) {
        OtherNamesUnchanged(ApplyAll(pairs, init), e.name, e.value.value, name);
      } else {
        OtherNamesUnchanged(ApplyAll(pairs, init), e.name, "", name);
      }
    }
  }

  /** With distinct names, every entry of a record reads back as its own value. */
  lemma {:induction false} ApplyAllReadsBack(pairs: seq<Pair>, entries: seq<Entry>, k: nat)
    requires k < |entries|
    requires DistinctNames(entries)
    ensures First(ApplyAll(pairs, entries), entries[k].name) == if Given(entries[k].value) then entries[k].value else None
  {
    var init := entries[..|entries| - 1];
    var e := entries[|entries| - 1];
    if k == |entries| - 1 {
      ApplyReadsBack(ApplyAll(pairs, init), e);
    } else {
      assert init[k] == entries[k];
      ApplyAllReadsBack(pairs, init, k);
      if Given(e.value) {
        OtherNamesUnchanged(ApplyAll(pairs, init), e.name, e.value.value, entries[k].name);
      } else {
        OtherNamesUnchanged(ApplyAll(pairs, init), e.name, "", entries[k].name);
      }
    }
  }

  /** The query already reflects the entry: set once to its value when given, absent otherwise. */
  predicate Settled(pairs: seq<Pair>, e: Entry) {
    if Given(e.value) then Occurrences(pairs, e.name) == 1 && First(pairs, e.name) == e.value
    else Occurrences(pairs, e.name) == 0
  }

  /** Applying an entry settles it. */
  lemma ApplySettles(pairs: seq<Pair>, e: Entry)
    ensures Settled(Apply(pairs, e), e)
  {
    if Given(e.value) {
      AssignedReadsBack(pairs, e.name, e.value.value);
    } else {
      RemovedAbsent(pairs, e.name);
    }
  }

  /** Applying a settled entry changes nothing. */
  lemma ApplySettled(pairs: seq<Pair>, e: Entry)
    requires Settled(pairs, e)
    ensures Apply(pairs, e) == pairs
  {
    if Given(e.value) {
      AssignedSameValue(pairs, e.name, e.value.value);
    } else {
      RemovedAbsentName(pairs, e.name);
    }
  }

  /** Applying an entry of another name keeps an entry settled. */
  lemma ApplyKeepsSettled(pairs: seq<Pair>, e: Entry, settled: Entry)
    requires Settled(pairs, settled) && e.name != settled.name
    ensures Settled(Apply(pairs, e), settled)
  {
    var v := if Given(e.value) then e.value.value else "";
    OtherNamesUnchanged(pairs, e.name, v, settled.name);
    OtherCountsUnchanged(pairs, e.name, v, settled.name);
  }

  /** Entries with distinct names, as the keys of a JavaScript object are. */
  predicate DistinctNames(entries: seq<Entry>) {
    forall i, j :: 0 <= i < j < |entries| ==> entries[i].name != entries[j].name
  }

  /** After a record of distinct names, every one of its entries is settled. */
  lemma {:induction false} ApplyAllSettles(pairs: seq<Pair>, entries: seq<Entry>)
    requires DistinctNames(entries)
    ensures forall k :: 0 <= k < |entries| ==> Settled(ApplyAll(pairs, entries), entries[k])
  {
    if |entries| > 0 {
      var init := entries[..|entries| - 1];
      var e := entries[|entries| - 1];
      var before := ApplyAll(pairs, init);
      assert DistinctNames(init);
      ApplyAllSettles(pairs, init);
      forall k | 0 <= k < |entries|
        ensures Settled(ApplyAll(pairs, entries), entries[k])
      {
        if k == |entries| - 1 {
          ApplySettles(before, e);
        } else {
          assert init[k] == entries[k];
          ApplyKeepsSettled(before, e, entries[k]);
        }
      }
    }
  }

  /** A record whose entries are all settled changes nothing. */
  lemma {:induction false} ApplyAllSettled(pairs: seq<Pair>, entries: seq<Entry>)
    requires forall k :: 0 <= k < |entries| ==> Settled(pairs, entries[k])
    ensures ApplyAll(pairs, entries) == pairs
  {
    if |entries| > 0 {
      var init := entries[..|entries| - 1];
      assert forall k :: 0 <= k < |init| ==> init[k] == entries[k];
      ApplyAllSettled(pairs, init);
      ApplySettled(pairs, entries[|entries| - 1]);
    }
  }

  /**
   * The same `setFilter` call made twice gives the query it gives once, in
   * the single-key form and in the record form (whose keys are distinct).
   */
  lemma ChangedIdempotent(current: seq<Pair>, change: FilterChange)
    requires change.Many? ==> DistinctNames(change.entries)
    ensures Changed(Changed(current, change), change) == Changed(current, change)
  {
    match change
    case Single(e) =>
      ApplySettles(current, e);
      ApplySettled(Apply(current, e), e);
    case Many(entries) =>
      ApplyAllSettles(current, entries);
      ApplyAllSettled(ApplyAll(current, entries), entries);
  }

  // --------------------------------------------------------------- filters

  /** `searchParams.get(name) || ""`. */
  function Shown(pairs: seq<Pair>, name: string): string {
    First(pairs, name).GetOr("")
  }

  /** `filters`: the four filter values, `""` for a missing one. */
  datatype Filters = Filters(city: string, propertyType: string, status: string, timeline: string)

  function ReadFilters(pairs: seq<Pair>): Filters {
    Filters(Shown(pairs, "city"), Shown(pairs, "propertyType"), Shown(pairs, "status"), Shown(pairs, "timeline"))
  }

  /** The record the "Clear All" button passes. */
  const ClearAll: seq<Entry> := [Entry("city", None), Entry("propertyType", None), Entry("status", None), Entry("timeline", None)]

  /**
   * "Clear All" empties the four filters and leaves every other entry,
   * the page number included, reading as before.
   */
  lemma ClearAllClears(pairs: seq<Pair>, other: string)
    requires other != "city" && other != "propertyType" && other != "status" && other != "timeline"
    ensures ReadFilters(ApplyAll(pairs, ClearAll)) == Filters("", "", "", "")
    ensures First(ApplyAll(pairs, ClearAll), other) == First(pairs, other)
  {
    var after := ApplyAll(pairs, ClearAll);
    assert ClearAll[0].name == "city" && ClearAll[1].name == "propertyType";
    assert ClearAll[2].name == "status" && ClearAll[3].name == "timeline";
    assert DistinctNames(ClearAll);
    ApplyAllReadsBack(pairs, ClearAll, 0);
    ApplyAllReadsBack(pairs, ClearAll, 1);
    ApplyAllReadsBack(pairs, ClearAll, 2);
    ApplyAllReadsBack(pairs, ClearAll, 3);
    assert !Mentions(ClearAll, other);
    ApplyAllOthers(pairs, ClearAll, other);
  }

  /**
   * Choosing a value for one filter shows it, and choosing the empty value
   * (the "All" option) or none shows `""`; every other name keeps its value.
   */
  lemma SetOneFilter(pairs: seq<Pair>, name: string, value: Option<string>, other: string)
    requires other != name
    ensures Shown(SetFilterQuery(pairs, name, value), name) == value.GetOr("")
    ensures First(SetFilterQuery(pairs, name, value), other) == First(pairs, other)
  {
    ApplyReadsBack(pairs, Entry(name, value));
    OtherNamesUnchanged(pairs, name, if Given(value) then value.value else "", other);
  }

  /** `setFilter(name, value)`. */
  function SetFilterQuery(pairs: seq<Pair>, name: string, value: Option<string>): seq<Pair> {
    Changed(pairs, Single(Entry(name, value)))
  }
}
