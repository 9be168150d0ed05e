/**
 * The stats handler of server.js: one `reduce` over the store counting records
 * per `type`, summing `capacity` and counting records.
 *
 * `Accumulate` is the fold as the handler writes it, with one JavaScript object
 * for the per-type buckets and the two totals. `Summarize` keeps the buckets
 * apart from the totals; the stats handler of the model uses it.
 */
module Statistics {
  import opened Seqs
  import opened Resources

  // ---------------------------------------------------------------------
  // The fold as written: one accumulator object for buckets and totals
  // ---------------------------------------------------------------------

  /** The reduce's initial object `{shelter: 0, food: 0, medical: 0, totalCapacity: 0, totalResources: 0}`. */
  const InitialAccumulator: map<string, real> :=
    map["shelter" := 0.0, "food" := 0.0, "medical" := 0.0, "totalCapacity" := 0.0, "totalResources" := 0.0]

  /** One step of the reduce callback on the shared object. */
  function AccumulateStep(acc: map<string, real>, r: Resource): (next: map<string, real>)
    requires "totalCapacity" in acc && "totalResources" in acc
    ensures "totalCapacity" in next && "totalResources" in next
  {
    var bucket := acc[r.kind := (if r.kind in acc then acc[r.kind] else 0.0) + 1.0];
    var withCapacity := bucket["totalCapacity" := bucket["totalCapacity"] + r.capacity];
    withCapacity["totalResources" := withCapacity["totalResources"] + 1.0]
  }

  /** The reduce over the store, left to right. */
  function Accumulate(s: seq<Resource>): (acc: map<string, real>)
    ensures "totalCapacity" in acc && "totalResources" in acc
  {
    if s == [] then InitialAccumulator
    else AccumulateStep(Accumulate(s[..|s| - 1]), s[|s| - 1])
  }

  /**
   * A record whose `type` is "totalResources" lands in the counter itself:
   * a store of one such record reports two resources.
   */
  lemma KindNamedLikeACounterMiscounts(r: Resource)
    requires r.kind == "totalResources"
    ensures Accumulate([r])["totalResources"] == 2.0
    ensures Summarize([r]).totalResources == 1
  {
    assert [r][..0] == [];
  }

  // ---------------------------------------------------------------------
  // The corrected fold: buckets apart from the totals
  // ---------------------------------------------------------------------

  /** The stats response: per-type counts, the capacity sum and the record count. */
  datatype Summary = Summary(byKind: map<string, nat>, totalCapacity: real, totalResources: nat)

  /** The three buckets that start at 0. */
  const KnownKinds: set<string> := {"shelter", "food", "medical"}

  const InitialSummary: Summary :=
    Summary(map["shelter" := 0, "food" := 0, "medical" := 0], 0.0, 0)

  /** One step of the fold: the record's bucket (created on first sight), its capacity and the count. */
  function AddRecord(acc: Summary, r: Resource): Summary {
    var count := if r.kind in acc.byKind then acc.byKind[r.kind] else 0;
    Summary(acc.byKind[r.kind := count + 1], acc.totalCapacity + r.capacity, acc.totalResources + 1)
  }

  /** The fold over the store, left to right. */
  function Summarize(s: seq<Resource>): Summary {
    if s == [] then InitialSummary
    else AddRecord(Summarize(s[..|s| - 1]), s[|s| - 1])
  }

  /** The sum of the capacities, right to left: the reference for `totalCapacity`. */
  function SumCapacity(s: seq<Resource>): real {
    if s == [] then 0.0 else s[0].capacity + SumCapacity(s[1..])
  }

  /** How many records have the given `type`: the reference for one bucket. */
  function CountKind(s: seq<Resource>, kind: string): nat {
    |Filter(s, OfKind(kind))|
  }

  /** The `type` values present in the store. */
  function KindsIn(s: seq<Resource>): set<string> {
    set r | r in s :: r.kind
  }

  lemma {:induction false} SumCapacityAppend(s: seq<Resource>, x: Resource)
    ensures SumCapacity(s + [x]) == SumCapacity(s) + x.capacity
  {
    if s != [] {
      assert (s + [x])[1..] == s[1..] + [x];
      SumCapacityAppend(s[1..], x);
    }
  }

  lemma CountKindAppend(s: seq<Resource>, x: Resource, kind: string)
    ensures CountKind(s + [x], kind) == CountKind(s, kind) + (if x.kind == kind then 1 else 0)
  {
    FilterAppend(s, [x], OfKind(kind));
  }

  lemma {:induction false} CountKindAbsent(s: seq<Resource>, kind: string)
    requires kind !in KindsIn(s)
    ensures CountKind(s, kind) == 0
  {
    if s != [] {
      assert s[0] in s;
      assert KindsIn(s[1..]) <= KindsIn(s);
      CountKindAbsent(s[1..], kind);
    }
  }

  /** `totalResources` is the store's length and `totalCapacity` the sum of its capacities. */
  lemma {:induction false} SummarizeTotals(s: seq<Resource>)
    ensures Summarize(s).totalResources == |s|
    ensures Summarize(s).totalCapacity == SumCapacity(s)
  {
    if s != [] {
      var init, x := s[..|s| - 1], s[|s| - 1];
      assert s == init + [x];
      SummarizeTotals(init);
      SumCapacityAppend(init, x);
    }
  }

  /** There is a bucket for each of the three known types and for every type present, and no other. */
  lemma {:induction false} SummarizeKeys(s: seq<Resource>)
    ensures Summarize(s).byKind.Keys == KnownKinds + KindsIn(s)
  {
    if s != [] {
      var init, x := s[..|s| - 1], s[|s| - 1];
      assert s == init + [x];
      SummarizeKeys(init);
      assert KindsIn(s) == KindsIn(init) + {x.kind};
    }
  }

  /** Each bucket holds the number of records of its type. */
  lemma {:induction false} SummarizeBuckets(s: seq<Resource>)
    ensures forall k :: k in Summarize(s).byKind ==> Summarize(s).byKind[k] == CountKind(s, k)
  {
    if s != [] {
      var init, x := s[..|s| - 1], s[|s| - 1];
      assert s == init + [x];
      SummarizeBuckets(init);
      SummarizeKeys(init);
      AddRecordCounts(Summarize(init), init, x);
    }
  }

  /** One step of the fold keeps every bucket equal to its count. */
  lemma AddRecordCounts(acc: Summary, init: seq<Resource>, x: Resource)
    ensures
      && acc.byKind.Keys == KnownKinds + KindsIn(init)
      && (forall k :: k in acc.byKind ==> acc.byKind[k] == CountKind(init, k))
      ==> forall k :: k in AddRecord(acc, x).byKind ==> AddRecord(acc, x).byKind[k] == CountKind(init + [x], k)
  {
    var before, after := acc.byKind, AddRecord(acc, x).byKind;
    if before.Keys != KnownKinds + KindsIn(init) || exists k :: k in before && before[k] != CountKind(init, k) {
      return;
    }
    forall k | k in after
      ensures after[k] == CountKind(init + [x], k)
    {
      CountKindAppend(init, x, k);
      if k == x.kind {
        if k !in before {
          CountKindAbsent(init, k);
        }
      } else {
        assert k in before;
      }
    }
  }

  // ---------------------------------------------------------------------
  // The buckets add up to the record count
  // ---------------------------------------------------------------------

  /** The sum of `m`'s values over the keys in `keys`. */
  ghost function SumOver(m: map<string, nat>, keys: set<string>): int
    requires keys <= m.Keys
    decreases keys
  {
    if keys == {} then 0
    else
      var k :| k in keys;
      m[k] + SumOver(m, keys - {k})
  }

  /** Any key may be taken out of the sum first. */
  lemma {:induction false} SumOverTake(m: map<string, nat>, keys: set<string>, k: string)
    requires keys <= m.Keys && k in keys
    ensures SumOver(m, keys) == m[k] + SumOver(m, keys - {k})
    decreases keys
  {
    var j :| j in keys && SumOver(m, keys) == m[j] + SumOver(m, keys - {j});
    if j != k {
      SumOverTake(m, keys - {j}, k);
      SumOverTake(m, keys - {k}, j);
      assert keys - {j} - {k} == keys - {k} - {j};
    }
  }

  /** The sum depends only on the values at the summed keys. */
  lemma {:induction false} SumOverAgree(m1: map<string, nat>, m2: map<string, nat>, keys: set<string>)
    requires keys <= m1.Keys && keys <= m2.Keys
    requires forall k :: k in keys ==> m1[k] == m2[k]
    ensures SumOver(m1, keys) == SumOver(m2, keys)
    decreases keys
  {
    if keys != {} {
      var k :| k in keys;
      SumOverTake(m1, keys, k);
      SumOverTake(m2, keys, k);
      SumOverAgree(m1, m2, keys - {k});
    }
  }

  /** Adding one to one bucket (new or old) adds one to the sum of the buckets. */
  lemma BumpAddsOne(m: map<string, nat>, kind: string)
    ensures var m' := m[kind := (if kind in m then m[kind] else 0) + 1];
      SumOver(m', m'.Keys) == SumOver(m, m.Keys) + 1
  {
    var m' := m[kind := (if kind in m then m[kind] else 0) + 1];
    SumOverTake(m', m'.Keys, kind);
    if kind in m {
      SumOverTake(m, m.Keys, kind);
      assert m'.Keys - {kind} == m.Keys - {kind};
      SumOverAgree(m, m', m.Keys - {kind});
    } else {
      assert m'.Keys - {kind} == m.Keys;
      SumOverAgree(m, m', m.Keys);
    }
  }

  /** The per-type counts sum to `totalResources`. */
  lemma {:induction false} BucketsAddUp(s: seq<Resource>)
    ensures SumOver(Summarize(s).byKind, Summarize(s).byKind.Keys) == Summarize(s).totalResources
  {
    if s == [] {
      var m := InitialSummary.byKind;
      SumOverTake(m, m.Keys, "shelter");
      SumOverTake(m, m.Keys - {"shelter"}, "food");
      SumOverTake(m, m.Keys - {"shelter"} - {"food"}, "medical");
      assert m.Keys - {"shelter"} - {"food"} - {"medical"} == {};
    } else {
      BucketsAddUp(s[..|s| - 1]);
      BumpAddsOne(Summarize(s[..|s| - 1]).byKind, s[|s| - 1].kind);
    }
  }

  // ---------------------------------------------------------------------
  // Where the two folds agree
  // ---------------------------------------------------------------------

  /** No record's `type` collides with the names of the two totals. */
  predicate NoCounterKinds(s: seq<Resource>) {
    forall r :: r in s ==> r.kind != "totalCapacity" && r.kind != "totalResources"
  }

  /** The object of the fold as written holds what a summary holds, under the same names. */
  predicate Agree(acc: map<string, real>, sum: Summary) {
    && acc.Keys == sum.byKind.Keys + {"totalCapacity", "totalResources"}
    && (forall k :: k in sum.byKind ==> acc[k] == sum.byKind[k] as real)
    && acc["totalCapacity"] == sum.totalCapacity
    && acc["totalResources"] == sum.totalResources as real
  }

  lemma AgreeStep(acc: map<string, real>, sum: Summary, x: Resource)
    requires Agree(acc, sum) && "totalCapacity" !in sum.byKind && "totalResources" !in sum.byKind
    requires x.kind != "totalCapacity" && x.kind != "totalResources"
    ensures Agree(AccumulateStep(acc, x), AddRecord(sum, x))
  {
  }

  /**
   * When no record's `type` is named like a total, the fold as written reports
   * exactly what the corrected fold reports: the same buckets, the same totals.
   */
  lemma {:induction false} AccumulateAgrees(s: seq<Resource>)
    requires NoCounterKinds(s)
    ensures Agree(Accumulate(s), Summarize(s))
  {
    if s != [] {
      var init, x := s[..|s| - 1], s[|s| - 1];
      assert x in s;
      assert NoCounterKinds(init) by {
        forall r | r in init ensures r in s { }
      }
      AccumulateAgrees(init);
      SummarizeKeys(init);
      AgreeStep(Accumulate(init), Summarize(init), x);
    } else {
      assert InitialAccumulator.Keys == {"shelter", "food", "medical", "totalCapacity", "totalResources"};
    }
  }
}
