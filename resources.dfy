/**
 * Resource records and the pure steps behind the resource handlers of server.js:
 * validation and defaults of create, the shallow merge of update, the
 * first-match lookup shared by get, update and delete, and the splice of delete.
 */
module Resources {
  import opened Wrappers
  import opened Seqs

  /**
   * One relief facility. `kind` is the record's `type` field (`type` is a
   * reserved word in Dafny). JavaScript numbers are `real`s; timestamps are the
   * ISO strings the clock produced.
   */
  datatype Resource = Resource(
    id: int,
    name: string,
    lat: real,
    lng: real,
    kind: string,
    contact: string,
    capacity: real,
    description: string,
    address: string,
    operatingHours: string,
    facilities: seq<string>,
    status: string,
    dateAdded: string,
    lastUpdated: string)

  /** The failures the resource handlers answer with (400, 400 and 404). */
  datatype Error = MissingRequiredFields | InvalidCoordinates | ResourceNotFound

  /** The body of a create request: each field may be absent. */
  datatype ResourceFields = ResourceFields(
    name: Option<string>,
    lat: Option<real>,
    lng: Option<real>,
    kind: Option<string>,
    contact: Option<string>,
    capacity: Option<real>,
    description: Option<string>,
    address: Option<string>,
    operatingHours: Option<string>,
    facilities: Option<seq<string>>)

  /** The body of an update request: any subset of the record's fields. */
  datatype ResourcePatch = ResourcePatch(
    id: Option<int>,
    name: Option<string>,
    lat: Option<real>,
    lng: Option<real>,
    kind: Option<string>,
    contact: Option<string>,
    capacity: Option<real>,
    description: Option<string>,
    address: Option<string>,
    operatingHours: Option<string>,
    facilities: Option<seq<string>>,
    status: Option<string>,
    dateAdded: Option<string>,
    lastUpdated: Option<string>)

  /** JavaScript truthiness of a string field: present and not empty. */
  predicate TruthyText(o: Option<string>) {
    o.Some? && o.value != ""
  }

  /** JavaScript truthiness of a number field: present and not zero. */
  predicate TruthyNumber(o: Option<real>) {
    o.Some? && o.value != 0.0
  }

  /** The presence test of create: all six required fields truthy. */
  predicate HasRequiredFields(f: ResourceFields) {
    && TruthyText(f.name)
    && TruthyNumber(f.lat)
    && TruthyNumber(f.lng)
    && TruthyText(f.kind)
    && TruthyText(f.contact)
    && TruthyNumber(f.capacity)
  }

  /** Latitude within [-90, 90] and longitude within [-180, 180]. */
  predicate InRange(lat: real, lng: real) {
    -90.0 <= lat <= 90.0 && -180.0 <= lng <= 180.0
  }

  /** The two checks of create, in the order the handler makes them. */
  function Validate(f: ResourceFields): (o: Outcome<Error>)
    ensures o.Pass? <==> HasRequiredFields(f) && InRange(f.lat.value, f.lng.value)
    ensures o == Fail(MissingRequiredFields) <==> !HasRequiredFields(f)
    ensures o != Fail(ResourceNotFound)
  {
    if !HasRequiredFields(f) then Fail(MissingRequiredFields)
    else if f.lat.value < -90.0 || f.lat.value > 90.0 || f.lng.value < -180.0 || f.lng.value > 180.0
    then Fail(InvalidCoordinates)
    else Pass
  }

  /** A coordinate of exactly 0 (the equator, the prime meridian) is falsy, so it is refused as missing. */
  lemma ZeroCoordinateIsMissing(f: ResourceFields)
    requires f.lat == Some(0.0) || f.lng == Some(0.0) || f.capacity == Some(0.0)
    ensures Validate(f) == Fail(MissingRequiredFields)
  {
  }

  /** `parseInt` of a finite number of ordinary magnitude: truncation toward zero. */
  function Truncate(x: real): (n: int)
    ensures 0.0 <= x ==> n as real <= x < n as real + 1.0
    ensures x < 0.0 ==> n as real - 1.0 < x <= n as real
  {
    if 0.0 <= x then x.Floor else -((-x).Floor)
  }

  /** `o || d` on a string field. */
  function OrText(o: Option<string>, d: string): string {
    if TruthyText(o) then o.value else d
  }

  /** The record create appends: the given fields, parsed capacity, and the defaults. */
  function NewResource(f: ResourceFields, id: int, dateAdded: string, lastUpdated: string): Resource
    requires HasRequiredFields(f)
  {
    Resource(
      id, f.name.value, f.lat.value, f.lng.value, f.kind.value, f.contact.value,
      Truncate(f.capacity.value) as real,
      OrText(f.description, ""), OrText(f.address, ""), OrText(f.operatingHours, "24/7"),
      f.facilities.GetOr([]), "active", dateAdded, lastUpdated)
  }

  /** What a created record holds: the request's values, the defaults for absent fields, a valid position. */
  lemma NewResourceDefaults(f: ResourceFields, id: int, dateAdded: string, lastUpdated: string)
    requires Validate(f).Pass?
    ensures var r := NewResource(f, id, dateAdded, lastUpdated);
      && r.id == id && r.dateAdded == dateAdded && r.lastUpdated == lastUpdated
      && r.name == f.name.value && r.kind == f.kind.value && r.contact == f.contact.value
      && InRange(r.lat, r.lng) && r.lat == f.lat.value && r.lng == f.lng.value
      && r.status == "active"
      && (f.description.None? ==> r.description == "")
      && (f.address.None? ==> r.address == "")
      && (!TruthyText(f.operatingHours) ==> r.operatingHours == "24/7")
      && (TruthyText(f.operatingHours) ==> r.operatingHours == f.operatingHours.value)
      && (f.facilities.None? ==> r.facilities == [])
      && (f.facilities.Some? ==> r.facilities == f.facilities.value)
  {
  }

  /** The stored capacity is the request's capacity truncated toward zero; a fraction below one becomes 0. */
  lemma NewResourceCapacity(f: ResourceFields, id: int, dateAdded: string, lastUpdated: string)
    requires HasRequiredFields(f) && 0.0 < f.capacity.value
    ensures var c := NewResource(f, id, dateAdded, lastUpdated).capacity;
      c <= f.capacity.value < c + 1.0 && (f.capacity.value < 1.0 ==> c == 0.0)
  {
  }

  /** The shallow merge `{...old, ...body, lastUpdated: now}` of update. */
  function Merge(r: Resource, p: ResourcePatch, now: string): Resource {
    Resource(
      p.id.GetOr(r.id), p.name.GetOr(r.name), p.lat.GetOr(r.lat), p.lng.GetOr(r.lng),
      p.kind.GetOr(r.kind), p.contact.GetOr(r.contact), p.capacity.GetOr(r.capacity),
      p.description.GetOr(r.description), p.address.GetOr(r.address),
      p.operatingHours.GetOr(r.operatingHours), p.facilities.GetOr(r.facilities),
      p.status.GetOr(r.status), p.dateAdded.GetOr(r.dateAdded), now)
  }

  /** The patch that supplies no field. */
  const NoChanges: ResourcePatch :=
    ResourcePatch(None, None, None, None, None, None, None, None, None, None, None, None, None, None)

  /** The patch that supplies every field of `x`. */
  function PatchOf(x: Resource): ResourcePatch {
    ResourcePatch(
      Some(x.id), Some(x.name), Some(x.lat), Some(x.lng), Some(x.kind), Some(x.contact),
      Some(x.capacity), Some(x.description), Some(x.address), Some(x.operatingHours),
      Some(x.facilities), Some(x.status), Some(x.dateAdded), Some(x.lastUpdated))
  }

  /** Field-wise "q wins over p": the body of two updates seen as one. */
  function Then(p: ResourcePatch, q: ResourcePatch): ResourcePatch {
    ResourcePatch(
      if q.id.Some? then q.id else p.id,
      if q.name.Some? then q.name else p.name,
      if q.lat.Some? then q.lat else p.lat,
      if q.lng.Some? then q.lng else p.lng,
      if q.kind.Some? then q.kind else p.kind,
      if q.contact.Some? then q.contact else p.contact,
      if q.capacity.Some? then q.capacity else p.capacity,
      if q.description.Some? then q.description else p.description,
      if q.address.Some? then q.address else p.address,
      if q.operatingHours.Some? then q.operatingHours else p.operatingHours,
      if q.facilities.Some? then q.facilities else p.facilities,
      if q.status.Some? then q.status else p.status,
      if q.dateAdded.Some? then q.dateAdded else p.dateAdded,
      if q.lastUpdated.Some? then q.lastUpdated else p.lastUpdated)
  }

  /** An empty body changes nothing but `lastUpdated`. */
  lemma MergeNoChanges(r: Resource, now: string)
    ensures Merge(r, NoChanges, now) == r.(lastUpdated := now)
  {
  }

  /** A body carrying every field replaces the record, except that `lastUpdated` is the new time. */
  lemma MergeEveryField(r: Resource, x: Resource, now: string)
    ensures Merge(r, PatchOf(x), now) == x.(lastUpdated := now)
  {
  }

  /** `lastUpdated` is the new time whatever the body says about it. */
  lemma MergeIgnoresBodyLastUpdated(r: Resource, p: ResourcePatch, stamp: Option<string>, now: string)
    ensures Merge(r, p.(lastUpdated := stamp), now) == Merge(r, p, now)
    ensures Merge(r, p, now).lastUpdated == now
  {
  }

  /** The merge does not protect `id` or `dateAdded`: a body that names them overwrites them. */
  lemma MergeIdentityFields(r: Resource, p: ResourcePatch, now: string)
    ensures Merge(r, p, now).id == if p.id.Some? then p.id.value else r.id
    ensures Merge(r, p, now).dateAdded == if p.dateAdded.Some? then p.dateAdded.value else r.dateAdded
  {
  }

  /** Repeating an update with the same body and time gives the same record. */
  lemma MergeIdempotent(r: Resource, p: ResourcePatch, now: string)
    ensures Merge(Merge(r, p, now), p, now) == Merge(r, p, now)
  {
  }

  /** Two updates in a row are one update whose body lets the later fields win. */
  lemma MergeThen(r: Resource, p: ResourcePatch, q: ResourcePatch, t1: string, t2: string)
    ensures Merge(Merge(r, p, t1), q, t2) == Merge(r, Then(p, q), t2)
  {
  }

  /** Update does not re-check coordinates: a valid record can be moved off the globe. */
  lemma MergeSkipsCoordinateCheck(r: Resource, now: string)
    requires InRange(r.lat, r.lng)
    ensures !InRange(Merge(r, NoChanges.(lat := Some(95.0)), now).lat, r.lng)
  {
  }

  /** The predicate `resource => resource.type === kind`. */
  function OfKind(kind: string): Resource -> bool {
    (r: Resource) => r.kind == kind
  }

  /** The predicate `r => r.id === id`. */
  function HasId(id: int): Resource -> bool {
    (r: Resource) => r.id == id
  }

  /** `findIndex` by id: the position of the FIRST record carrying `id`, or none. */
  function FindIndex(s: seq<Resource>, id: int): (r: Option<nat>)
    ensures r.Some? ==> r.value < |s| && s[r.value].id == id
    ensures r.Some? ==> forall j :: 0 <= j < r.value ==> s[j].id != id
    ensures r.None? <==> forall j :: 0 <= j < |s| ==> s[j].id != id
  {
    if s == [] then None
    else if s[0].id == id then Some(0)
    else match FindIndex(s[1..], id)
      case None => None
      case Some(i) => Some(i + 1)
  }

  /** `find` by id: the first record carrying `id`, or none. */
  function Find(s: seq<Resource>, id: int): (r: Option<Resource>)
    ensures r.Some? <==> exists x :: x in s && x.id == id
    ensures r.Some? ==> r.value in s && r.value.id == id
    ensures r.Some? ==> exists i :: 0 <= i < |s| && s[i] == r.value && forall j :: 0 <= j < i ==> s[j].id != id
  {
    match FindIndex(s, id)
    case Some(i) =>
      assert s[i] == s[i] && forall j :: 0 <= j < i ==> s[j].id != id;
      Some(s[i])
    case None => None
  }

  /** How many records carry `id` (ids are clock values, so more than one may). */
  function CountId(s: seq<Resource>, id: int): nat {
    |Filter(s, HasId(id))|
  }

  /** No record carries `id` exactly when the lookup fails. */
  lemma CountIdZero(s: seq<Resource>, id: int)
    ensures CountId(s, id) == 0 <==> FindIndex(s, id).None?
  {
    var f := Filter(s, HasId(id));
    if FindIndex(s, id).Some? {
      var i := FindIndex(s, id).value;
      assert HasId(id)(s[i]);
      assert s[i] in f;
    }
  }

  /** `splice(i, 1)`: the sequence without position `i`. */
  function RemoveAt(s: seq<Resource>, i: nat): seq<Resource>
    requires i < |s|
  {
    s[..i] + s[i + 1..]
  }

  /** `splice(i, 1)` keeps every other record, in its old order. */
  lemma RemoveAtKeepsOthers(s: seq<Resource>, i: nat)
    requires i < |s|
    ensures var t := RemoveAt(s, i);
      && |t| == |s| - 1
      && (forall k :: 0 <= k < i ==> t[k] == s[k])
      && (forall k :: i <= k < |t| ==> t[k] == s[k + 1])
      && multiset(t) + multiset{s[i]} == multiset(s)
  {
    assert s == s[..i] + ([s[i]] + s[i + 1..]);
  }

  /**
   * Delete removes exactly the first record carrying `id`: one record fewer,
   * the others in their old order, and one occurrence of `id` fewer.
   */
  lemma RemoveFirstMatch(s: seq<Resource>, id: int, i: nat)
    requires FindIndex(s, id) == Some(i)
    ensures var t := RemoveAt(s, i);
      && |t| == |s| - 1
      && (forall k :: 0 <= k < i ==> t[k] == s[k])
      && (forall k :: i <= k < |t| ==> t[k] == s[k + 1])
      && multiset(t) + multiset{s[i]} == multiset(s)
      && CountId(t, id) == CountId(s, id) - 1
  {
    RemoveAtKeepsOthers(s, i);
    assert s == s[..i] + ([s[i]] + s[i + 1..]);
    CountSplit(s[..i], s[i], s[i + 1..], id);
  }

  /** Counting ids across a split at one record that carries the id. */
  lemma CountSplit(before: seq<Resource>, x: Resource, after: seq<Resource>, id: int)
    requires x.id == id
    ensures CountId(before + ([x] + after), id) == CountId(before + after, id) + 1
  {
    var p := HasId(id);
    FilterAppend(before, [x] + after, p);
    FilterAppend([x], after, p);
    FilterAppend(before, after, p);
  }

  /** After a delete, a get of the same id fails exactly when the id was carried by one record only. */
  lemma GetAfterRemove(s: seq<Resource>, id: int, i: nat)
    requires FindIndex(s, id) == Some(i)
    ensures FindIndex(RemoveAt(s, i), id).None? <==> CountId(s, id) == 1
  {
    RemoveFirstMatch(s, id, i);
    CountIdZero(RemoveAt(s, i), id);
  }
}
