/**
 * The nearby handler of server.js: every record annotated with its distance
 * from the query point, kept when within the radius, then when of the requested
 * `type`, then sorted ascending by distance with a stable sort.
 *
 * The distance function (haversine on the sphere in the source) is a parameter.
 */
module Nearby {
  import opened Seqs
  import opened Resources

  /** A record with its distance from the query point, in km. */
  datatype Located = Located(resource: Resource, distance: real)

  /** The `radius` used when the request names none, in km. */
  const DefaultRadiusKm: real := 50.0

  /** The `map` step: each record with `distance(userLat, userLng, lat, lng)`, in store order. */
  function Annotate(s: seq<Resource>, userLat: real, userLng: real, distance: (real, real, real, real) -> real)
    : (r: seq<Located>)
    ensures |r| == |s|
    ensures forall i :: 0 <= i < |s| ==> r[i] == Located(s[i], distance(userLat, userLng, s[i].lat, s[i].lng))
  {
    if s == [] then []
    else
      [Located(s[0], distance(userLat, userLng, s[0].lat, s[0].lng))]
      + Annotate(s[1..], userLat, userLng, distance)
  }

  function WithinRadius(radius: real): Located -> bool {
    (l: Located) => l.distance <= radius
  }

  function LocatedOfKind(kind: string): Located -> bool {
    (l: Located) => l.resource.kind == kind
  }

  function AtDistance(d: real): Located -> bool {
    (l: Located) => l.distance == d
  }

  /** Ascending by distance. */
  predicate Sorted(s: seq<Located>) {
    forall i, j :: 0 <= i < j < |s| ==> s[i].distance <= s[j].distance
  }

  /**
   * Put `x` into `t` after every leading entry not farther than `x`: the
   * insertion step of a stable sort when entries arrive in store order.
   */
  function Insert(t: seq<Located>, x: Located): (r: seq<Located>)
    ensures multiset(r) == multiset(t) + multiset{x}
  {
    if t == [] then [x]
    else if t[0].distance <= x.distance then
      assert t == [t[0]] + t[1..];
      [t[0]] + Insert(t[1..], x)
    else [x] + t
  }

  /** A sorted sequence with an entry in front that is not farther than any of it is sorted. */
  lemma SortedCons(h: Located, t: seq<Located>)
    requires Sorted(t)
    requires forall y :: y in t ==> h.distance <= y.distance
    ensures Sorted([h] + t)
  {
    var r := [h] + t;
    forall i, j | 0 <= i < j < |r|
      ensures r[i].distance <= r[j].distance
    {
      assert r[j] == t[j - 1];
      if i > 0 {
        assert r[i] == t[i - 1];
      } else {
        assert t[j - 1] in t;
      }
    }
  }

  /** The first entry of a sorted sequence is not farther than any of it. */
  lemma SortedHeadIsLeast(t: seq<Located>)
    requires Sorted(t) && t != []
    ensures forall y :: y in t ==> t[0].distance <= y.distance
  {
    forall y | y in t
      ensures t[0].distance <= y.distance
    {
      var k :| 0 <= k < |t| && t[k] == y;
    }
  }

  /** Inserting into a sorted sequence keeps it sorted. */
  lemma {:induction false} InsertSorted(t: seq<Located>, x: Located)
    requires Sorted(t)
    ensures Sorted(Insert(t, x))
  {
    if t == [] {
    } else if t[0].distance <= x.distance {
      assert Sorted(t[1..]);
      InsertSorted(t[1..], x);
      SortedHeadIsLeast(t);
      var rest := Insert(t[1..], x);
      forall y | y in rest
        ensures t[0].distance <= y.distance
      {
        assert y in multiset(rest);
        assert y == x || y in multiset(t[1..]);
        assert y == x || y in t;
      }
      SortedCons(t[0], rest);
    } else {
      SortedHeadIsLeast(t);
      SortedCons(x, t);
    }
  }

  /** `sort((a, b) => a.distance - b.distance)`: a stable sort ascending by distance. */
  function SortByDistance(s: seq<Located>): (r: seq<Located>)
    ensures multiset(r) == multiset(s)
    ensures Sorted(r)
  {
    if s == [] then []
    else
      assert s == s[..|s| - 1] + [s[|s| - 1]];
      InsertSorted(SortByDistance(s[..|s| - 1]), s[|s| - 1]);
      Insert(SortByDistance(s[..|s| - 1]), s[|s| - 1])
  }

  lemma InsertUnfoldsPastHead(t: seq<Located>, x: Located)
    requires t != [] && t[0].distance <= x.distance
    ensures Insert(t, x) == [t[0]] + Insert(t[1..], x)
  {
  }

  /** Filtering an insertion past the head: the head's share, then the rest's. */
  lemma InsertTiesPastHead(t: seq<Located>, x: Located, d: real)
    requires t != [] && t[0].distance <= x.distance
    requires Filter(Insert(t[1..], x), AtDistance(d)) == Filter(t[1..], AtDistance(d)) + Filter([x], AtDistance(d))
    ensures Filter(Insert(t, x), AtDistance(d)) == Filter(t, AtDistance(d)) + Filter([x], AtDistance(d))
  {
    var p := AtDistance(d);
    InsertUnfoldsPastHead(t, x);
    FilterHead(t, p);
    FilterAppend([t[0]], Insert(t[1..], x), p);
    AppendAssociative(Filter([t[0]], p), Filter(t[1..], p), Filter([x], p));
  }

  /** Filtering an insertion in front of a sorted sequence whose head is farther than `x`. */
  lemma InsertTiesInFront(t: seq<Located>, x: Located, d: real)
    requires Sorted(t) && t != [] && x.distance < t[0].distance
    ensures Filter(Insert(t, x), AtDistance(d)) == Filter(t, AtDistance(d)) + Filter([x], AtDistance(d))
  {
    var p := AtDistance(d);
    assert Insert(t, x) == [x] + t;
    FilterAppend([x], t, p);
    if x.distance == d {
      SortedHeadIsLeast(t);
      FilterKeepsNone(t, p);
    } else {
      FilterKeepsNone([x], p);
    }
  }

  /** Inserting `x` puts it after every entry at its own distance, and keeps those in order. */
  lemma {:induction false} InsertKeepsTies(t: seq<Located>, x: Located, d: real)
    requires Sorted(t)
    ensures Filter(Insert(t, x), AtDistance(d)) == Filter(t, AtDistance(d)) + Filter([x], AtDistance(d))
  {
    if t == [] {
    } else if t[0].distance <= x.distance {
      assert Sorted(t[1..]);
      InsertKeepsTies(t[1..], x, d);
      InsertTiesPastHead(t, x, d);
    } else {
      InsertTiesInFront(t, x, d);
    }
  }

  /** The sort is stable: the entries at any one distance keep their input order. */
  lemma {:induction false} SortKeepsTies(s: seq<Located>, d: real)
    ensures Filter(SortByDistance(s), AtDistance(d)) == Filter(s, AtDistance(d))
  {
    if s != [] {
      var init, x := s[..|s| - 1], s[|s| - 1];
      assert s == init + [x];
      SortKeepsTies(init, d);
      InsertKeepsTies(SortByDistance(init), x, d);
      FilterAppend(init, [x], AtDistance(d));
    }
  }

  /** The handler's pipeline: map, filter by radius, filter by `type` when one is given, sort. */
  function NearbyOf(
    s: seq<Resource>, userLat: real, userLng: real, radius: real, kind: string,
    distance: (real, real, real, real) -> real): seq<Located>
  {
    var within := Filter(Annotate(s, userLat, userLng, distance), WithinRadius(radius));
    var typed := if kind != "" then Filter(within, LocatedOfKind(kind)) else within;
    SortByDistance(typed)
  }

  /** Whether one annotated record qualifies, stated on its own. */
  predicate Qualifies(radius: real, kind: string, l: Located) {
    l.distance <= radius && (kind != "" ==> l.resource.kind == kind)
  }

  function QualifiesFor(radius: real, kind: string): Located -> bool {
    (l: Located) => Qualifies(radius, kind, l)
  }

  /** The annotated records that qualify, in store order: the reference the result is a sort of. */
  function Candidates(
    s: seq<Resource>, userLat: real, userLng: real, radius: real, kind: string,
    distance: (real, real, real, real) -> real): seq<Located>
  {
    Filter(Annotate(s, userLat, userLng, distance), QualifiesFor(radius, kind))
  }

  /** The two filters of the handler select exactly the candidates, in store order. */
  lemma FiltersSelectCandidates(
    s: seq<Resource>, userLat: real, userLng: real, radius: real, kind: string,
    distance: (real, real, real, real) -> real)
    ensures var within := Filter(Annotate(s, userLat, userLng, distance), WithinRadius(radius));
      (if kind != "" then Filter(within, LocatedOfKind(kind)) else within)
        == Candidates(s, userLat, userLng, radius, kind, distance)
  {
    var a := Annotate(s, userLat, userLng, distance);
    if kind != "" {
      FilterFilter(a, WithinRadius(radius), LocatedOfKind(kind));
      FilterCongruent(a, Both(WithinRadius(radius), LocatedOfKind(kind)), QualifiesFor(radius, kind));
    } else {
      FilterCongruent(a, WithinRadius(radius), QualifiesFor(radius, kind));
    }
  }

  /**
   * The nearby result is the candidates sorted: a permutation of them,
   * ascending by distance, and stable (candidates at one distance keep store order).
   */
  lemma NearbyIsStableSortOfCandidates(
    s: seq<Resource>, userLat: real, userLng: real, radius: real, kind: string,
    distance: (real, real, real, real) -> real, d: real)
    ensures var r := NearbyOf(s, userLat, userLng, radius, kind, distance);
      var c := Candidates(s, userLat, userLng, radius, kind, distance);
      && Sorted(r)
      && multiset(r) == multiset(c)
      && Filter(r, AtDistance(d)) == Filter(c, AtDistance(d))
  {
    FiltersSelectCandidates(s, userLat, userLng, radius, kind, distance);
    SortKeepsTies(Candidates(s, userLat, userLng, radius, kind, distance), d);
  }

  /**
   * Every result lies within the radius and has the requested `type`, and every
   * record of the store that does appears, with its distance.
   */
  lemma NearbyMembers(
    s: seq<Resource>, userLat: real, userLng: real, radius: real, kind: string,
    distance: (real, real, real, real) -> real)
    ensures var r := NearbyOf(s, userLat, userLng, radius, kind, distance);
      && (forall l :: l in r ==> l.distance <= radius && (kind != "" ==> l.resource.kind == kind))
      && (forall i :: 0 <= i < |s| && Qualifies(radius, kind, Located(s[i], distance(userLat, userLng, s[i].lat, s[i].lng)))
            ==> Located(s[i], distance(userLat, userLng, s[i].lat, s[i].lng)) in r)
  {
    var r := NearbyOf(s, userLat, userLng, radius, kind, distance);
    var a := Annotate(s, userLat, userLng, distance);
    var c := Candidates(s, userLat, userLng, radius, kind, distance);
    SameMembersAsCandidates(s, userLat, userLng, radius, kind, distance);
    forall l | l in r
      ensures l.distance <= radius && (kind != "" ==> l.resource.kind == kind)
    {
      assert QualifiesFor(radius, kind)(l);
    }
    forall i | 0 <= i < |s| && Qualifies(radius, kind, Located(s[i], distance(userLat, userLng, s[i].lat, s[i].lng)))
      ensures Located(s[i], distance(userLat, userLng, s[i].lat, s[i].lng)) in r
    {
      assert a[i] in a;
      assert a[i] in c;
    }
  }

  /** The result holds exactly the candidates. */
  lemma SameMembersAsCandidates(
    s: seq<Resource>, userLat: real, userLng: real, radius: real, kind: string,
    distance: (real, real, real, real) -> real)
    ensures var r, c := NearbyOf(s, userLat, userLng, radius, kind, distance),
                        Candidates(s, userLat, userLng, radius, kind, distance);
      forall l :: l in r <==> l in c
  {
    var r := NearbyOf(s, userLat, userLng, radius, kind, distance);
    var c := Candidates(s, userLat, userLng, radius, kind, distance);
    FiltersSelectCandidates(s, userLat, userLng, radius, kind, distance);
    assert multiset(r) == multiset(c);
    forall l
      ensures l in r <==> l in c
    {
      assert l in r <==> l in multiset(r);
      assert l in c <==> l in multiset(c);
    }
  }
}
