/**
 * The list handler of server.js: an exact `type` filter, then a
 * case-insensitive substring `search` over name, description and address,
 * then a cut to `limit`, with `total` counted before the cut.
 */
module Listing {
  import opened Wrappers
  import opened Seqs
  import opened Text
  import opened Resources

  /** The query string of a list request; `""` stands for an absent (or empty, hence falsy) parameter. */
  datatype ListQuery = ListQuery(kind: string, search: string, limit: Option<nat>)

  /** The `data` and `total` of a list response. */
  datatype Page = Page(data: seq<Resource>, total: nat)

  /** The `limit` used when the request names none. */
  const DefaultLimit: nat := 50

  /** The search predicate, given the already lower-cased search text. */
  function Mentions(needle: string): Resource -> bool {
    (r: Resource) =>
      || Includes(Lower(r.name), needle)
      || Includes(Lower(r.description), needle)
      || Includes(Lower(r.address), needle)
  }

  /** The filtered sequence before the cut, built the way the handler builds it. */
  function Selected(s: seq<Resource>, q: ListQuery): seq<Resource> {
    var byKind := if q.kind != "" then Filter(s, OfKind(q.kind)) else s;
    if q.search != "" then Filter(byKind, Mentions(Lower(q.search))) else byKind
  }

  /** The list response: the first `limit` selected records and the number selected. */
  function List(s: seq<Resource>, q: ListQuery): (p: Page)
    ensures p.total == |Selected(s, q)|
    ensures |p.data| == Min(q.limit.GetOr(DefaultLimit), p.total)
    ensures p.data <= Selected(s, q)
  {
    var found := Selected(s, q);
    Page(found[..Min(q.limit.GetOr(DefaultLimit), |found|)], |found|)
  }

  /** Whether one record passes both filters of `q`, stated on its own. */
  predicate Matches(q: ListQuery, r: Resource) {
    && (q.kind != "" ==> r.kind == q.kind)
    && (q.search != "" ==>
          var needle := Lower(q.search);
          || Includes(Lower(r.name), needle)
          || Includes(Lower(r.description), needle)
          || Includes(Lower(r.address), needle))
  }

  /** `Matches` as a filter predicate. */
  function MatchesQuery(q: ListQuery): Resource -> bool {
    (r: Resource) => Matches(q, r)
  }

  /** The two filters in a row are one filter by `Matches`: the selection is in store order. */
  lemma SelectedIsOneFilter(s: seq<Resource>, q: ListQuery)
    ensures Selected(s, q) == Filter(s, MatchesQuery(q))
  {
    var needle := Lower(q.search);
    if q.kind != "" && q.search != "" {
      FilterFilter(s, OfKind(q.kind), Mentions(needle));
      FilterCongruent(s, Both(OfKind(q.kind), Mentions(needle)), MatchesQuery(q));
    } else if q.kind != "" {
      FilterCongruent(s, OfKind(q.kind), MatchesQuery(q));
    } else if q.search != "" {
      FilterCongruent(s, Mentions(needle), MatchesQuery(q));
    } else {
      FilterKeepsAll(s, MatchesQuery(q));
    }
  }

  /** Every listed record is in the store and passes both filters. */
  lemma ListSound(s: seq<Resource>, q: ListQuery)
    ensures forall r :: r in List(s, q).data ==> r in s && Matches(q, r)
  {
    SelectedIsOneFilter(s, q);
    var p := List(s, q);
    forall r | r in p.data
      ensures r in s && Matches(q, r)
    {
      var k :| 0 <= k < |p.data| && p.data[k] == r;
      assert r in Selected(s, q);
    }
  }

  /** `total` counts every matching record of the store; when it is within the limit, all of them are listed. */
  lemma ListComplete(s: seq<Resource>, q: ListQuery)
    ensures List(s, q).total == |Filter(s, MatchesQuery(q))|
    ensures List(s, q).total <= q.limit.GetOr(DefaultLimit) ==>
      forall r :: r in s && Matches(q, r) ==> r in List(s, q).data
  {
    SelectedIsOneFilter(s, q);
    var p := List(s, q);
    if p.total <= q.limit.GetOr(DefaultLimit) {
      assert p.data == Selected(s, q);
      forall r | r in s && Matches(q, r)
        ensures r in p.data
      {
        assert MatchesQuery(q)(r);
      }
    }
  }

  /** Listing the concatenation of two stores lists the first store's matches before the second's. */
  lemma SelectedKeepsStoreOrder(a: seq<Resource>, b: seq<Resource>, q: ListQuery)
    ensures Selected(a + b, q) == Selected(a, q) + Selected(b, q)
  {
    SelectedIsOneFilter(a + b, q);
    SelectedIsOneFilter(a, q);
    SelectedIsOneFilter(b, q);
    FilterAppend(a, b, MatchesQuery(q));
  }

  /** The search ignores ASCII case: two search texts with the same lower-case form list the same page. */
  lemma ListIgnoresSearchCase(s: seq<Resource>, q: ListQuery, other: string)
    requires Lower(other) == Lower(q.search)
    ensures List(s, q.(search := other)) == List(s, q)
  {
    assert |other| == |q.search|;
  }
}
