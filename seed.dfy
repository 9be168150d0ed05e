/** The records the server starts with, and what the handlers report about them. */
module Seed {
  import opened Wrappers
  import opened Resources
  import opened Ancillary
  import opened Statistics

  /** The five seed resources; every timestamp is the one start-up reading `t`. */
  function SeedResources(t: string): seq<Resource> {
    [
      Resource(1, "Delhi Emergency Shelter Complex", 28.6139, 77.2090, "shelter", "+91-11-1234567890", 500.0,
        "Large emergency shelter with dormitories, medical facility, and kitchen",
        "Connaught Place, New Delhi", "24/7", ["Medical Aid", "Food", "Shelter", "Communication"], "active", t, t),
      Resource(2, "Mumbai Flood Relief Center", 19.0760, 72.8777, "food", "+91-22-9988776655", 800.0,
        "24/7 food distribution center with fresh meals and emergency supplies",
        "Bandra West, Mumbai", "24/7", ["Food Distribution", "Water", "Emergency Supplies"], "active", t, t),
      Resource(3, "Chennai Medical Emergency Hub", 13.0827, 80.2707, "medical", "+91-44-9876543210", 300.0,
        "Fully equipped medical center with trauma care and ambulance services",
        "T. Nagar, Chennai", "24/7", ["Emergency Care", "Trauma Unit", "Ambulance", "Pharmacy"], "active", t, t),
      Resource(4, "Bangalore Disaster Response Center", 12.9716, 77.5946, "shelter", "+91-80-1111222233", 400.0,
        "Multi-purpose disaster response facility with coordination center",
        "Whitefield, Bangalore", "24/7", ["Shelter", "Coordination", "Communication", "Transportation"], "active", t, t),
      Resource(5, "Kolkata Community Kitchen", 22.5726, 88.3639, "food", "+91-33-4444555566", 1000.0,
        "Large community kitchen serving traditional meals and special dietary needs",
        "Park Street, Kolkata", "6:00 AM - 10:00 PM", ["Hot Meals", "Special Diet", "Takeaway", "Delivery"], "active", t, t)
    ]
  }

  /** The two seed alerts, both active. */
  function SeedAlerts(t: string): seq<Alert> {
    [
      Alert(1, Some("Cyclone Warning - Eastern Coast"),
        Some("Severe cyclone expected to hit eastern coastal regions. All resources on high alert."),
        Some("high"), ["Chennai", "Kolkata", "Bhubaneswar"], t, true),
      Alert(2, Some("Flood Alert - Mumbai Region"),
        Some("Heavy rainfall expected. Flood relief centers activated."),
        Some("medium"), ["Mumbai", "Pune", "Nashik"], t, true)
    ]
  }

  /** The stats of the seed store: two shelters, two food centres, one medical hub, capacity 3000. */
  lemma SeedStats(t: string)
    ensures Summarize(SeedResources(t)) == Summary(map["shelter" := 2, "food" := 2, "medical" := 1], 3000.0, 5)
  {
    var s := SeedResources(t);
    assert s[..1][..0] == [];
    assert Summarize(s[..1]) == Summary(map["shelter" := 1, "food" := 0, "medical" := 0], 500.0, 1);
    assert s[..2][..1] == s[..1];
    assert Summarize(s[..2]) == Summary(map["shelter" := 1, "food" := 1, "medical" := 0], 1300.0, 2);
    assert s[..3][..2] == s[..2];
    assert Summarize(s[..3]) == Summary(map["shelter" := 1, "food" := 1, "medical" := 1], 1600.0, 3);
    assert s[..4][..3] == s[..3];
    assert Summarize(s[..4]) == Summary(map["shelter" := 2, "food" := 1, "medical" := 1], 2000.0, 4);
    assert s[..4] == s[..|s| - 1];
  }
}
