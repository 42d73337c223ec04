/** The nearest-attractions projection: one entry per attraction, a stable sort
    by distance, and the first five entries. */
module Nearby {
  /** How many attractions `getFiveClosestAttraction` keeps. */
  const ClosestCount: nat := 5

  /** One attraction as seen from the user's position. */
  datatype NearbyAttraction = NearbyAttraction(
    attractionName: string,
    attractionLat: real,
    attractionLong: real,
    distance: real,
    rewardPoint: int)

  /** The answer of `getNearByAttractions`: the kept entries and the user's coordinates. */
  datatype NearAttractionResult = NearAttractionResult(
    nearbyAttractionList: seq<NearbyAttraction>,
    userLat: real,
    userLong: real)

  function Min(a: int, b: int): int
  {
    if a <= b then a else b
  }

  ghost predicate SortedByDistance(s: seq<NearbyAttraction>)
  {
    forall i, j :: 0 <= i < j < |s| ==> s[i].distance <= s[j].distance
  }

  /** `[e]` when `e` is at distance `d`, else nothing. */
  function KeepAt(e: NearbyAttraction, d: real): seq<NearbyAttraction>
  {
    if e.distance == d then [e] else []
  }

  /** The entries of `s` at distance `d`, in their order in `s`. */
  function AtDistance(s: seq<NearbyAttraction>, d: real): seq<NearbyAttraction>
  {
    if s == [] then [] else KeepAt(s[0], d) + AtDistance(s[1..], d)
  }

  lemma {:induction false} AtDistanceAppend(s: seq<NearbyAttraction>, t: seq<NearbyAttraction>, d: real)
    ensures AtDistance(s + t, d) == AtDistance(s, d) + AtDistance(t, d)
    decreases |s|
  {
    if s == [] {
      assert s + t == t;
    } else {
      var u := s + t;
      assert u[0] == s[0] && u[1..] == s[1..] + t;
      AtDistanceAppend(s[1..], t, d);
      calc {
        AtDistance(u, d);
        KeepAt(s[0], d) + AtDistance(s[1..] + t, d);
        KeepAt(s[0], d) + (AtDistance(s[1..], d) + AtDistance(t, d));
        (KeepAt(s[0], d) + AtDistance(s[1..], d)) + AtDistance(t, d);
      }
    }
  }

  /** An entry no farther than every entry of a sorted list can go in front of it. */
  lemma SortedCons(h: NearbyAttraction, t: seq<NearbyAttraction>)
    requires SortedByDistance(t)
    requires forall e :: e in t ==> h.distance <= e.distance
    ensures SortedByDistance([h] + t)
  {
    var r := [h] + t;
    forall i, j | 0 <= i < j < |r| ensures r[i].distance <= r[j].distance {
      assert r[j] == t[j - 1];
      if 0 < i { assert r[i] == t[i - 1]; }
    }
  }

  /** Places `x` in front of the first entry of `s` that is not closer than it,
      so entries at the same distance keep their relative order. */
  function Insert(x: NearbyAttraction, s: seq<NearbyAttraction>): (r: seq<NearbyAttraction>)
    ensures multiset(r) == multiset(s) + multiset{x}
  {
    if s == [] || x.distance <= s[0].distance then [x] + s
    else
      assert s == [s[0]] + s[1..];
      [s[0]] + Insert(x, s[1..])
  }

  /** Inserting into a list sorted by distance keeps it sorted. */
  lemma {:induction false} InsertSorted(x: NearbyAttraction, s: seq<NearbyAttraction>)
    requires SortedByDistance(s)
    ensures SortedByDistance(Insert(x, s))
    decreases |s|
  {
    if s == [] || x.distance <= s[0].distance {
      forall e | e in s ensures x.distance <= e.distance {
        var k :| 0 <= k < |s| && s[k] == e;
        assert s[0].distance <= s[k].distance;
      }
      SortedCons(x, s);
    } else {
      var head, tail := s[0], s[1..];
      assert SortedByDistance(tail) by {
        forall i, j | 0 <= i < j < |tail| ensures tail[i].distance <= tail[j].distance {
          assert tail[i] == s[i + 1] && tail[j] == s[j + 1];
        }
      }
      var rest := Insert(x, tail);
      InsertSorted(x, tail);
      forall e | e in rest ensures head.distance <= e.distance {
        assert e in multiset(rest);
        if e != x {
          assert e in multiset(tail);
          var k :| 0 <= k < |tail| && tail[k] == e;
          assert s[k + 1] == e;
        }
      }
      SortedCons(head, rest);
    }
  }

  /** `Collections.sort` by distance: a stable sort, written as insertion sort. */
  function SortByDistance(s: seq<NearbyAttraction>): (r: seq<NearbyAttraction>)
    ensures SortedByDistance(r)
    ensures multiset(r) == multiset(s)
    ensures |r| == |s|
  {
    if s == [] then []
    else
      assert s == [s[0]] + s[1..];
      InsertSorted(s[0], SortByDistance(s[1..]));
      Insert(s[0], SortByDistance(s[1..]))
  }

  lemma AtDistanceCons(e: NearbyAttraction, t: seq<NearbyAttraction>, d: real)
    ensures AtDistance([e] + t, d) == KeepAt(e, d) + AtDistance(t, d)
  {
    assert ([e] + t)[0] == e && ([e] + t)[1..] == t;
  }

  /** When `x` is farther than the head of `s`, insertion passes the head by. */
  lemma InsertPastHead(x: NearbyAttraction, s: seq<NearbyAttraction>)
    requires s != [] && x.distance > s[0].distance
    ensures Insert(x, s) == [s[0]] + Insert(x, s[1..])
  {
  }

  /** Two filtered pieces, one of them empty, can be put in either order. */
  lemma SwapWhenOneEmpty(h: seq<NearbyAttraction>, k: seq<NearbyAttraction>, t: seq<NearbyAttraction>)
    requires h == [] || k == []
    ensures h + (k + t) == k + (h + t)
  {
    if h == [] {
      assert h + (k + t) == k + t == k + (h + t);
    } else {
      assert h + (k + t) == h + t == k + (h + t);
    }
  }

  /** Insertion puts `x` ahead of every entry already at its distance. */
  lemma {:induction false} InsertKeepsTieOrder(x: NearbyAttraction, s: seq<NearbyAttraction>, d: real)
    ensures AtDistance(Insert(x, s), d) == AtDistance([x] + s, d)
    decreases |s|
  {
    if s != [] && x.distance > s[0].distance {
      var head, tail := s[0], s[1..];
      var rest := Insert(x, tail);
      InsertPastHead(x, s);
      assert s == [head] + tail;
      var h, k, t := KeepAt(head, d), KeepAt(x, d), AtDistance(tail, d);
      AtDistanceCons(head, rest, d);
      InsertKeepsTieOrder(x, tail, d);
      AtDistanceCons(x, tail, d);
      AtDistanceCons(x, s, d);
      AtDistanceCons(head, tail, d);
      assert x.distance != d || head.distance != d;
      SwapWhenOneEmpty(h, k, t);
    }
  }

  /** The sort is stable: for every distance, the entries at that distance come
      out in the order they went in. */
  lemma {:induction false} SortKeepsTieOrder(s: seq<NearbyAttraction>, d: real)
    ensures AtDistance(SortByDistance(s), d) == AtDistance(s, d)
    decreases |s|
  {
    if s != [] {
      SortKeepsTieOrder(s[1..], d);
      InsertKeepsTieOrder(s[0], SortByDistance(s[1..]), d);
      AtDistanceAppend([s[0]], SortByDistance(s[1..]), d);
      assert s == [s[0]] + s[1..];
      AtDistanceAppend([s[0]], s[1..], d);
    }
  }

  /** `getFiveClosestAttraction`: sort by distance, keep the first `min(5, n)`,
      which come out by non-decreasing distance and are drawn from the input. */
  function GetFiveClosestAttraction(attractionsDistance: seq<NearbyAttraction>): (r: seq<NearbyAttraction>)
    ensures |r| == Min(ClosestCount, |attractionsDistance|)
    ensures SortedByDistance(r)
    ensures multiset(r) <= multiset(attractionsDistance)
  {
    var sorted := SortByDistance(attractionsDistance);
    var k := Min(ClosestCount, |attractionsDistance|);
    assert sorted == sorted[..k] + sorted[k..];
    assert multiset(sorted) == multiset(sorted[..k]) + multiset(sorted[k..]);
    sorted[..k]
  }

  /** What is left of `t` after removing its first `k` entries, as a multiset. */
  lemma MultisetDropPrefix(t: seq<NearbyAttraction>, k: nat)
    requires k <= |t|
    ensures multiset(t) - multiset(t[..k]) == multiset(t[k..])
  {
    assert t == t[..k] + t[k..];
  }

  /** In a list sorted by distance, no entry after position `k` is closer than
      an entry before it. */
  lemma SortedPrefixClosest(t: seq<NearbyAttraction>, k: nat)
    requires SortedByDistance(t)
    requires k <= |t|
    ensures forall x, y :: x in t[..k] && y in multiset(t[k..]) ==> x.distance <= y.distance
  {
    forall x, y | x in t[..k] && y in multiset(t[k..]) ensures x.distance <= y.distance {
      var i :| 0 <= i < k && t[..k][i] == x;
      var j :| 0 <= j < |t| - k && t[k..][j] == y;
      assert t[i] == x && t[k + j] == y;
    }
  }

  /** No entry left out is closer than an entry kept. */
  lemma FiveClosestAreClosest(s: seq<NearbyAttraction>)
    ensures var r := GetFiveClosestAttraction(s);
      forall x, y :: x in r && y in multiset(s) - multiset(r) ==> x.distance <= y.distance
  {
    var t := SortByDistance(s);
    var k := Min(ClosestCount, |s|);
    assert GetFiveClosestAttraction(s) == t[..k];
    MultisetDropPrefix(t, k);
    SortedPrefixClosest(t, k);
  }

  /** Entries at equal distance are kept in input order: for every distance, the
      kept entries at that distance are the first ones of the input at that distance. */
  lemma FiveClosestKeepTieOrder(s: seq<NearbyAttraction>, d: real)
    ensures AtDistance(GetFiveClosestAttraction(s), d) <= AtDistance(s, d)
  {
    var t := SortByDistance(s);
    var k := Min(ClosestCount, |s|);
    assert t == t[..k] + t[k..];
    SortKeepsTieOrder(s, d);
    AtDistanceAppend(t[..k], t[k..], d);
  }
}
