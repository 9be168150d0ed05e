/**
 * The application state of server.js: the four module-level collections as
 * the fields of one object, and one method per route handler. Clock readings
 * (`Date.now()` for ids, `new Date().toISOString()` for timestamps) arrive as
 * parameters, as does the distance function of the nearby search.
 */
module Server {
  import opened Wrappers
  import opened Seqs
  import opened Resources
  import opened Listing
  import opened Statistics
  import opened Nearby
  import opened Ancillary
  import opened Seed

  class AppState {
    var resources: seq<Resource>
    var emergencyAlerts: seq<Alert>
    var reports: seq<Report>
    var volunteerRequests: seq<Volunteer>

    /** The state at start-up: the seed resources and alerts, no reports, no volunteers. */
    constructor (startedAt: string)
      ensures resources == SeedResources(startedAt)
      ensures emergencyAlerts == SeedAlerts(startedAt)
      ensures reports == [] && volunteerRequests == []
    {
      resources := SeedResources(startedAt);
      emergencyAlerts := SeedAlerts(startedAt);
      reports := [];
      volunteerRequests := [];
    }

    /** GET /api/resources: the page of matching records, in store order, and their number. */
    method ListResources(q: ListQuery) returns (page: Page)
      ensures page == List(resources, q)
      ensures forall r :: r in page.data ==> r in resources && Matches(q, r)
      ensures page.total == |Filter(resources, MatchesQuery(q))|
    {
      page := List(resources, q);
      ListSound(resources, q);
      ListComplete(resources, q);
    }

    /** GET /api/resources/:id: the first record carrying `id`, or not-found. */
    method GetResource(id: int) returns (r: Result<Resource, Error>)
      ensures r.Success? <==> exists x :: x in resources && x.id == id
      ensures r.Success? ==> r.value == resources[FindIndex(resources, id).value]
      ensures r.Failure? ==> r.error == ResourceNotFound
    {
      var found := Find(resources, id);
      if found.None? {
        return Failure(ResourceNotFound);
      }
      r := Success(found.value);
    }

    /**
     * POST /api/resources: refuse a request with a falsy required field or an
     * off-globe position and leave the store as it was; otherwise append the
     * new record at the end.
     */
    method CreateResource(f: ResourceFields, id: int, dateAdded: string, lastUpdated: string)
      returns (r: Result<Resource, Error>)
      modifies this`resources
      ensures Validate(f).Fail? ==> r == Failure(Validate(f).error) && resources == old(resources)
      ensures Validate(f).Pass? ==>
        && r == Success(NewResource(f, id, dateAdded, lastUpdated))
        && resources == old(resources) + [r.value]
    {
      if !HasRequiredFields(f) {
        return Failure(MissingRequiredFields);
      }
      if f.lat.value < -90.0 || f.lat.value > 90.0 || f.lng.value < -180.0 || f.lng.value > 180.0 {
        return Failure(InvalidCoordinates);
      }
      var created := NewResource(f, id, dateAdded, lastUpdated);
      resources := resources + [created];
      r := Success(created);
    }

    /**
     * PUT /api/resources/:id: merge the body over the first record carrying
     * `id`, in place; not-found leaves the store as it was.
     */
    method UpdateResource(id: int, patch: ResourcePatch, now: string) returns (r: Result<Resource, Error>)
      modifies this`resources
      ensures FindIndex(old(resources), id).None? ==>
        r == Failure(ResourceNotFound) && resources == old(resources)
      ensures FindIndex(old(resources), id).Some? ==>
        var i := FindIndex(old(resources), id).value;
        && r == Success(Merge(old(resources)[i], patch, now))
        && resources == old(resources)[i := r.value]
    {
      var index := FindIndex(resources, id);
      if index.None? {
        return Failure(ResourceNotFound);
      }
      var updated := Merge(resources[index.value], patch, now);
      resources := resources[index.value := updated];
      r := Success(updated);
    }

    /**
     * DELETE /api/resources/:id: splice out the first record carrying `id`;
     * not-found leaves the store as it was.
     */
    method DeleteResource(id: int) returns (r: Outcome<Error>)
      modifies this`resources
      ensures FindIndex(old(resources), id).None? ==>
        r == Fail(ResourceNotFound) && resources == old(resources)
      ensures FindIndex(old(resources), id).Some? ==>
        r == Pass && resources == RemoveAt(old(resources), FindIndex(old(resources), id).value)
    {
      var index := FindIndex(resources, id);
      if index.None? {
        return Fail(ResourceNotFound);
      }
      resources := RemoveAt(resources, index.value);
      r := Pass;
    }

    /**
     * GET /api/stats: the record count, the capacity sum and the per-type counts
     * of the store, kept apart as the corrected fold keeps them; on a store with
     * no type named like a total, this is what the fold as written reports.
     */
    method GetStats() returns (s: Summary)
      ensures s == Summarize(resources)
      ensures s.totalResources == |resources| && s.totalCapacity == SumCapacity(resources)
      ensures s.byKind.Keys == KnownKinds + KindsIn(resources)
      ensures forall k :: k in s.byKind ==> s.byKind[k] == CountKind(resources, k)
      ensures NoCounterKinds(resources) ==> Agree(Accumulate(resources), s)
    {
      s := Summarize(resources);
      if NoCounterKinds(resources) {
        AccumulateAgrees(resources);
      }
      SummarizeTotals(resources);
      SummarizeKeys(resources);
      SummarizeBuckets(resources);
    }

    /** GET /api/alerts: the active alerts, in store order. */
    method ListActiveAlerts() returns (alerts: seq<Alert>)
      ensures alerts == ActiveAlerts(emergencyAlerts)
      ensures forall a :: a in alerts <==> a in emergencyAlerts && a.isActive
    {
      alerts := ActiveAlerts(emergencyAlerts);
    }

    /** POST /api/alerts: append an active alert; it is listed from now on. */
    method CreateAlert(f: AlertFields, id: int, dateCreated: string) returns (a: Alert)
      modifies this`emergencyAlerts
      ensures a == NewAlert(f, id, dateCreated) && a.isActive
      ensures emergencyAlerts == old(emergencyAlerts) + [a]
      ensures ActiveAlerts(emergencyAlerts) == ActiveAlerts(old(emergencyAlerts)) + [a]
    {
      a := NewAlert(f, id, dateCreated);
      NewAlertIsListed(emergencyAlerts, f, id, dateCreated);
      emergencyAlerts := emergencyAlerts + [a];
    }

    /** POST /api/reports: append a pending report. */
    method CreateReport(f: ReportFields, id: int, dateReported: string) returns (rep: Report)
      modifies this`reports
      ensures rep == NewReport(f, id, dateReported) && rep.status == "pending"
      ensures reports == old(reports) + [rep]
    {
      rep := NewReport(f, id, dateReported);
      reports := reports + [rep];
    }

    /** POST /api/volunteer: append a pending sign-up. */
    method CreateVolunteer(f: VolunteerFields, id: int, dateRegistered: string) returns (v: Volunteer)
      modifies this`volunteerRequests
      ensures v == NewVolunteer(f, id, dateRegistered) && v.status == "pending"
      ensures volunteerRequests == old(volunteerRequests) + [v]
    {
      v := NewVolunteer(f, id, dateRegistered);
      volunteerRequests := volunteerRequests + [v];
    }

    /**
     * GET /api/resources/nearby/:lat/:lng: the records within `radius` km (50
     * when absent) and of the requested `type`, nearest first.
     */
    method FindNearby(
      userLat: real, userLng: real, radius: Option<real>, kind: string,
      distance: (real, real, real, real) -> real)
      returns (found: seq<Located>)
      ensures found == NearbyOf(resources, userLat, userLng, radius.GetOr(DefaultRadiusKm), kind, distance)
      ensures Sorted(found)
      ensures forall l :: l in found ==>
        l.distance <= radius.GetOr(DefaultRadiusKm) && (kind != "" ==> l.resource.kind == kind)
    {
      found := NearbyOf(resources, userLat, userLng, radius.GetOr(DefaultRadiusKm), kind, distance);
      NearbyMembers(resources, userLat, userLng, radius.GetOr(DefaultRadiusKm), kind, distance);
    }
  }
}
