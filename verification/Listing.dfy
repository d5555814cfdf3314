/** The records of the engine as the list that is stored, in the order of their identities. */
module Listing {
  import opened Types

  type Records = map<ExecutionId, Record>

  ghost predicate KeyedMap(m: Records) {
    forall id :: id in m ==> m[id].id == id
  }

  ghost predicate DistinctRecords(recs: seq<Record>) {
    forall i, j :: 0 <= i < j < |recs| ==> recs[i].id != recs[j].id
  }

  /** Installing recovered records: the first of equal identities stays. */
  function Emplaced(recs: seq<Record>): Records {
    if recs == [] then map[]
    else
      var m := Emplaced(recs[..|recs| - 1]);
      var last := recs[|recs| - 1];
      if last.id in m then m else m[last.id := last]
  }

  /** The epoch never goes behind one that a record carries. */
  function Highest(e: U64, recs: seq<Record>): (h: U64)
    ensures h >= e
  {
    if recs == [] then e
    else
      var h := Highest(e, recs[..|recs| - 1]);
      if recs[|recs| - 1].epoch > h then recs[|recs| - 1].epoch else h
  }

  /** h is the highest of e and the epochs of the records. */
  ghost predicate IsHighest(h: U64, e: U64, m: Records) {
    && h >= e && (forall id :: id in m ==> m[id].epoch <= h)
    && (h == e || exists id :: id in m && m[id].epoch == h)
  }

  lemma {:induction false} HighestIsHighest(e: U64, recs: seq<Record>)
    requires DistinctRecords(recs)
    ensures IsHighest(Highest(e, recs), e, Emplaced(recs))
  {
    if recs != [] {
      var rest := recs[..|recs| - 1];
      var last := recs[|recs| - 1];
      HighestIsHighest(e, rest);
      EmplacedFinds(rest);
      var m, n := Emplaced(rest), Emplaced(recs);
      assert last.id !in m;
      assert n == m[last.id := last];
      var h := Highest(e, rest);
      if h != e {
        var id :| id in m && m[id].epoch == h;
        assert n[id].epoch == h;
      }
      assert n[last.id].epoch == last.epoch;
    }
  }

  // ------------------------------------------------------------------------------------------
  // The sorted list of a map.
  // ------------------------------------------------------------------------------------------

  ghost predicate Sorted(recs: seq<Record>) {
    forall i, j :: 0 <= i < j < |recs| ==> recs[i].id < recs[j].id
  }

  /** Every record of the map once, in ascending order of identity. */
  ghost predicate Lists(recs: seq<Record>, m: Records) {
    && Sorted(recs)
    && (forall i :: 0 <= i < |recs| ==> recs[i].id in m && m[recs[i].id] == recs[i])
    && (forall id :: id in m ==> m[id] in recs)
  }

  function Insert(recs: seq<Record>, r: Record): (s: seq<Record>)
    ensures forall x :: x in s <==> x == r || x in recs
    ensures |s| == |recs| + 1
  {
    if recs == [] || r.id < recs[0].id then [r] + recs else [recs[0]] + Insert(recs[1..], r)
  }

  lemma {:induction false} InsertSorts(recs: seq<Record>, r: Record)
    requires Sorted(recs) && forall i :: 0 <= i < |recs| ==> recs[i].id != r.id
    ensures Sorted(Insert(recs, r))
  {
    if recs != [] && recs[0].id < r.id {
      var tail := Insert(recs[1..], r);
      InsertSorts(recs[1..], r);
      forall j | 0 <= j < |tail|
        ensures recs[0].id < tail[j].id
      {
        assert tail[j] in tail;
      }
    }
  }

  lemma InsertLists(recs: seq<Record>, m: Records, r: Record)
    requires Lists(recs, m) && KeyedMap(m) && r.id !in m
    ensures Lists(Insert(recs, r), m[r.id := r])
  {
    var s := Insert(recs, r);
    InsertSorts(recs, r);
    forall i | 0 <= i < |s|
      ensures s[i].id in m[r.id := r] && m[r.id := r][s[i].id] == s[i]
    {
      assert s[i] in s;
    }
  }

  lemma LastsAgree(a: seq<Record>, b: seq<Record>, m: Records)
    requires Lists(a, m) && Lists(b, m) && a != []
    ensures b != [] && a[|a| - 1] == b[|b| - 1]
  {
    var x := a[|a| - 1];
    assert m[x.id] in b;
    var y := b[|b| - 1];
    assert m[y.id] in a;
  }

  lemma Rejoin(a: seq<Record>, b: seq<Record>)
    requires a != [] && b != [] && a[..|a| - 1] == b[..|b| - 1] && a[|a| - 1] == b[|b| - 1]
    ensures a == b
  {
    assert a == a[..|a| - 1] + [a[|a| - 1]] && b == b[..|b| - 1] + [b[|b| - 1]];
  }

  lemma DropLasts(a: seq<Record>, b: seq<Record>, m: Records) returns (rest: Records)
    requires Lists(a, m) && Lists(b, m) && KeyedMap(m) && a != []
    ensures b != [] && a[|a| - 1] == b[|b| - 1]
    ensures Lists(a[..|a| - 1], rest) && Lists(b[..|b| - 1], rest) && KeyedMap(rest)
  {
    LastsAgree(a, b, m);
    DropLast(a, m);
    DropLast(b, m);
    rest := m - {a[|a| - 1].id};
  }

  lemma {:induction false} ListingUnique(a: seq<Record>, b: seq<Record>, m: Records)
    requires Lists(a, m) && Lists(b, m) && KeyedMap(m)
    ensures a == b
    decreases |a|
  {
    if a != [] {
      var rest := DropLasts(a, b, m);
      ListingUnique(a[..|a| - 1], b[..|b| - 1], rest);
      Rejoin(a, b);
    } else if b != [] {
      LastsAgree(b, a, m);
    }
  }

  lemma DropLast(a: seq<Record>, m: Records)
    requires Lists(a, m) && KeyedMap(m) && a != []
    ensures Lists(a[..|a| - 1], m - {a[|a| - 1].id})
  {
    var rest := m - {a[|a| - 1].id};
    forall id | id in rest
      ensures rest[id] in a[..|a| - 1]
    {
      var i :| 0 <= i < |a| && a[i] == m[id];
      assert a[..|a| - 1][i] == m[id];
    }
  }

  ghost function ListingOf(m: Records): (recs: seq<Record>)
    ensures |recs| == |m|
    decreases |m|
  {
    if m == map[] then []
    else
      var id :| id in m;
      Insert(ListingOf(m - {id}), m[id])
  }

  lemma OneMoreListed(m: Records, id: ExecutionId, recs: seq<Record>)
    requires KeyedMap(m) && id in m && Lists(recs, m - {id})
    ensures Lists(Insert(recs, m[id]), m)
  {
    var rest := m - {id};
    assert rest[id := m[id]] == m;
    InsertLists(recs, rest, m[id]);
  }

  lemma {:induction false} ListingLists(m: Records)
    requires KeyedMap(m)
    ensures Lists(ListingOf(m), m)
    decreases |m|
  {
    if m != map[] {
      var id :| id in m && ListingOf(m) == Insert(ListingOf(m - {id}), m[id]);
      ListingLists(m - {id});
      OneMoreListed(m, id, ListingOf(m - {id}));
    }
  }

  // ------------------------------------------------------------------------------------------
  // Installing a listing gives the map back.
  // ------------------------------------------------------------------------------------------

  lemma {:induction false} EmplacedFinds(recs: seq<Record>)
    ensures KeyedMap(Emplaced(recs))
    ensures forall id :: id in Emplaced(recs) ==> Emplaced(recs)[id] in recs
    ensures forall i :: 0 <= i < |recs| ==> recs[i].id in Emplaced(recs)
  {
    if recs != [] {
      EmplacedFinds(recs[..|recs| - 1]);
    }
  }

  lemma FindsListed(recs: seq<Record>, m: Records, id: ExecutionId)
    requires Lists(recs, m) && KeyedMap(m) && id in m
    ensures id in Emplaced(recs) && Emplaced(recs)[id] == m[id]
  {
    EmplacedFinds(recs);
    var i :| 0 <= i < |recs| && recs[i] == m[id];
    assert recs[i].id in Emplaced(recs);
    assert Emplaced(recs)[id] in recs;
  }

  lemma FindsNoOther(recs: seq<Record>, m: Records, id: ExecutionId)
    requires Lists(recs, m) && id in Emplaced(recs)
    ensures id in m
  {
    EmplacedFinds(recs);
    var i :| 0 <= i < |recs| && recs[i] == Emplaced(recs)[id];
  }

  lemma ListedAreDistinct(recs: seq<Record>)
    requires Sorted(recs)
    ensures DistinctRecords(recs)
  {}

  lemma EmplacedOfListing(m: Records)
    requires KeyedMap(m)
    ensures Emplaced(ListingOf(m)) == m
    ensures DistinctRecords(ListingOf(m))
  {
    var recs := ListingOf(m);
    ListingLists(m);
    ListedAreDistinct(recs);
    forall id
      ensures id in Emplaced(recs) <==> id in m
      ensures id in m ==> Emplaced(recs)[id] == m[id]
    {
      if id in m {
        FindsListed(recs, m, id);
      } else if id in Emplaced(recs) {
        FindsNoOther(recs, m, id);
      }
    }
  }
}
