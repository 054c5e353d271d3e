/** The id → name lookup that the admin page and the complaints page both
    build from the service list (a `reduce` that writes into an object), and
    the label a complaint row shows for its service.
 */
module ServiceNames {
  import opened Base
  import opened Entities

  const UnknownService := "Unknown service"

  /** The lookup the reduce produces: each service, in order, writes its name
      under its id, so a later entry overwrites an earlier one with the same id. */
  function LookupOf(services: seq<Service>): (lookup: map<string, string>)
  {
    if services == [] then map[]
    else
      var last := services[|services| - 1];
      LookupOf(services[..|services| - 1])[PropertyKey(last.id) := last.name]
  }

  /** `serviceLookup`: the accumulator is updated in place, one service at a time. */
  method ServiceLookup(services: seq<Service>) returns (lookup: map<string, string>)
    ensures lookup == LookupOf(services)
  {
    lookup := map[];
    for i := 0 to |services|
      invariant lookup == LookupOf(services[..i])
    {
      lookup := lookup[PropertyKey(services[i].id) := services[i].name];
      assert services[..i + 1][..i] == services[..i];
    }
    assert services[..|services|] == services;
  }

  /** The lookup has a key exactly for the ids that occur in the list. */
  lemma {:induction false} LookupKeys(services: seq<Service>, key: string)
    ensures key in LookupOf(services) <==>
            exists i :: 0 <= i < |services| && PropertyKey(services[i].id) == key
  {
    if services != [] {
      var n := |services| - 1;
      var init := services[..n];
      LookupKeys(init, key);
      KeyOccursSnoc(services, init, key);
    }
  }

  /** A key occurs in a non-empty list iff it occurs in the list without its
      last service, or is the last service's key. */
  lemma KeyOccursSnoc(services: seq<Service>, init: seq<Service>, key: string)
    requires services != [] && init == services[..|services| - 1]
    ensures (exists i :: 0 <= i < |services| && PropertyKey(services[i].id) == key) <==>
            (exists i :: 0 <= i < |init| && PropertyKey(init[i].id) == key) ||
            PropertyKey(services[|services| - 1].id) == key
  {
    assert forall i :: 0 <= i < |init| ==> init[i] == services[i];
  }

  /** Under each key sits the name of the LAST service with that id. */
  lemma {:induction false} LookupLastWins(services: seq<Service>, i: int)
    requires 0 <= i < |services|
    requires forall j :: i < j < |services| ==> PropertyKey(services[j].id) != PropertyKey(services[i].id)
    ensures PropertyKey(services[i].id) in LookupOf(services)
    ensures LookupOf(services)[PropertyKey(services[i].id)] == services[i].name
  {
    var init := services[..|services| - 1];
    if i < |services| - 1 {
      assert init[i] == services[i];
      LookupLastWins(init, i);
    }
  }

  predicate DistinctIds(services: seq<Service>) {
    forall i, j :: 0 <= i < j < |services| ==> services[i].id != services[j].id
  }

  /** With distinct ids, every service's own name is found under its id. */
  lemma LookupFindsEachService(services: seq<Service>, i: int)
    requires DistinctIds(services)
    requires 0 <= i < |services|
    ensures PropertyKey(services[i].id) in LookupOf(services)
    ensures LookupOf(services)[PropertyKey(services[i].id)] == services[i].name
  {
    forall j | i < j < |services|
      ensures PropertyKey(services[j].id) != PropertyKey(services[i].id)
    {
      if PropertyKey(services[j].id) == PropertyKey(services[i].id) {
        PropertyKeyInjective(services[j].id, services[i].id);
      }
    }
    LookupLastWins(services, i);
  }

  /** `serviceLookup[complaint.serviceId] || "Unknown service"`. */
  function ServiceLabel(lookup: map<string, string>, serviceId: string): (text: string)
    ensures text != ""
    ensures serviceId !in lookup ==> text == UnknownService
    ensures serviceId in lookup && lookup[serviceId] != "" ==> text == lookup[serviceId]
    ensures serviceId in lookup && lookup[serviceId] == "" ==> text == UnknownService
  {
    OrElse(Prop(lookup, serviceId), UnknownService)
  }

  /** A complaint filed through the service picker (whose value is the
      service id's text) is labelled with that service's name. */
  lemma LabelOfPickedService(services: seq<Service>, i: int)
    requires DistinctIds(services)
    requires 0 <= i < |services| && services[i].name != ""
    ensures ServiceLabel(LookupOf(services), PropertyKey(services[i].id)) == services[i].name
  {
    LookupFindsEachService(services, i);
  }

  /** A service id that matches no service is labelled "Unknown service". */
  lemma LabelOfUnknownService(services: seq<Service>, serviceId: string)
    requires forall j :: 0 <= j < |services| ==> PropertyKey(services[j].id) != serviceId
    ensures ServiceLabel(LookupOf(services), serviceId) == UnknownService
  {
    LookupKeys(services, serviceId);
  }
}
