/** The public service directory page: the composed search/category/status
    filter over the service list, the icon and image fallbacks of a service
    card, and the effects that load (seeding the defaults) and persist the
    list in browser storage.
 */
module ServiceDirectory {
  import opened Base
  import opened Entities
  import opened Storage

  /** The sentinel that makes the category or status filter accept everything. */
  const All := "all"

  const Icons: map<string, string> := map[
    "healthcare" := "hospital",
    "safety" := "shield-alt",
    "education" := "graduation-cap",
    "utilities" := "tools",
    "transportation" := "bus"
  ]

  const FallbackIcon := "building"

  const CategoryImages: map<string, string> := map[
    "healthcare" := "https://images.unsplash.com/photo-1586773860418-d37222d8fce3?auto=format&fit=crop&w=900&q=60",
    "safety" := "https://images.unsplash.com/photo-1453873531674-2151bcd01707?auto=format&fit=crop&w=900&q=60",
    "education" := "https://images.unsplash.com/photo-1503676260728-1c00da094a0b?auto=format&fit=crop&w=900&q=60",
    "utilities" := "https://images.unsplash.com/photo-1509391366360-2e959784a276?auto=format&fit=crop&w=900&q=60",
    "transportation" := "https://images.unsplash.com/photo-1469474968028-56623f02e42e?auto=format&fit=crop&w=900&q=60"
  ]

  const GenericImage := "https://images.unsplash.com/photo-1500530855697-b586d89ba3ee?auto=format&fit=crop&w=900&q=60"

  // ---------------------------------------------------------------------
  // Card decoration
  // ---------------------------------------------------------------------

  /** `icons[category] || "building"`. */
  function ServiceIcon(category: string): (icon: string)
    ensures icon != ""
    ensures icon == FallbackIcon <==> category !in Icons
    ensures category in Icons ==> icon == Icons[category]
  {
    OrElse(Prop(Icons, category), FallbackIcon)
  }

  /** The image a card shows: the service's own image, else the picture of
      its category, else the generic picture. Never empty. */
  function ServiceImage(s: Service): (url: string)
    ensures url != ""
    ensures s.image.Some? && s.image.value != "" ==> url == s.image.value
    ensures (s.image.None? || s.image.value == "") && s.category in CategoryImages ==>
              url == CategoryImages[s.category]
    ensures (s.image.None? || s.image.value == "") && s.category !in CategoryImages ==>
              url == GenericImage
  {
    var own := if s.image.Some? then s.image.value else "";
    OrElse(OrElse(own, Prop(CategoryImages, s.category)), GenericImage)
  }

  // ---------------------------------------------------------------------
  // The composed filter
  // ---------------------------------------------------------------------

  /** Case-insensitive substring search on name, description or address. */
  predicate MatchesSearch(s: Service, term: string) {
    var t := Lower(term);
    Includes(Lower(s.name), t) || Includes(Lower(s.description), t) || Includes(Lower(s.address), t)
  }

  predicate MatchesCategory(s: Service, category: string) {
    category == All || s.category == category
  }

  predicate MatchesStatus(s: Service, status: string) {
    status == All || s.status == status
  }

  predicate Matches(s: Service, term: string, category: string, status: string) {
    MatchesSearch(s, term) && MatchesCategory(s, category) && MatchesStatus(s, status)
  }

  /** `filteredServices`: the services passing search AND category AND status,
      in their original order. */
  function FilterServices(services: seq<Service>, term: string, category: string, status: string)
    : (shown: seq<Service>)
    ensures IsSubsequence(shown, services)
    ensures forall s :: s in shown <==> s in services && Matches(s, term, category, status)
    ensures forall s :: multiset(shown)[s] ==
                        if Matches(s, term, category, status) then multiset(services)[s] else 0
  {
    var p := (s: Service) => Matches(s, term, category, status);
    FilterIsSubsequence(services, p);
    forall s ensures s in Filter(services, p) <==> s in services && p(s) {
      FilterMembership(services, p, s);
    }
    forall s ensures multiset(Filter(services, p))[s] == if p(s) then multiset(services)[s] else 0 {
      FilterMultiplicity(services, p, s);
    }
    Filter(services, p)
  }

  /** An empty search with both filters on "all" shows the whole list. */
  lemma FilterServicesShowsAll(services: seq<Service>)
    ensures FilterServices(services, "", All, All) == services
  {
    forall i | 0 <= i < |services| ensures Matches(services[i], "", All, All) {
      IncludesEmpty(Lower(services[i].name));
    }
    FilterKeepsAll(services, (s: Service) => Matches(s, "", All, All));
  }

  /** A concrete category or status filter keeps only exact matches. */
  lemma FilterServicesExact(services: seq<Service>, term: string, category: string, status: string)
    ensures var shown := FilterServices(services, term, category, status);
            (category != All ==> forall i :: 0 <= i < |shown| ==> shown[i].category == category) &&
            (status != All ==> forall i :: 0 <= i < |shown| ==> shown[i].status == status)
  {
  }

  /** Filtering what is already shown, with the same inputs, changes nothing. */
  lemma FilterServicesIdempotent(services: seq<Service>, term: string, category: string, status: string)
    ensures FilterServices(FilterServices(services, term, category, status), term, category, status)
         == FilterServices(services, term, category, status)
  {
    FilterIdempotent(services, (s: Service) => Matches(s, term, category, status));
  }

  /** Two entries of the seed list (names shortened): filtering on the
      "utilities" category shows only the water works, id 4. */
  lemma UtilitiesScenario()
    ensures var hospital := Service(1, "City General Hospital", "healthcare", "Downtown", "", "24/7",
                                    "Hospital", "operational", 4.6, None);
            var water := Service(4, "Northside Water Works", "utilities", "Uptown", "", "",
                                 "Water", "maintenance", 3.8, None);
            FilterServices([hospital, water], "", "utilities", All) == [water]
  {
    var hospital := Service(1, "City General Hospital", "healthcare", "Downtown", "", "24/7",
                            "Hospital", "operational", 4.6, None);
    var water := Service(4, "Northside Water Works", "utilities", "Uptown", "", "",
                         "Water", "maintenance", 3.8, None);
    var p := (s: Service) => Matches(s, "", "utilities", All);
    IncludesEmpty(Lower(water.name));
    assert !p(hospital);
    assert p(water);
    assert [hospital, water][1..] == [water];
    assert Filter([water], p) == [water] + Filter([], p);
  }

  // ---------------------------------------------------------------------
  // The page
  // ---------------------------------------------------------------------

  class ServicesPage {
    const store: Store
    /** The seed list the page imports. */
    const defaults: seq<Service>
    var services: seq<Service>
    var searchTerm: string
    var category: string
    var statusFilter: string

    constructor (store: Store, defaults: seq<Service>)
      ensures this.store == store && this.defaults == defaults
      ensures services == [] && searchTerm == "" && category == All && statusFilter == All
    {
      this.store := store;
      this.defaults := defaults;
      services := [];
      searchTerm := "";
      category := All;
      statusFilter := All;
    }

    /** What the grid shows. */
    function Shown(): (shown: seq<Service>)
      reads this
      ensures IsSubsequence(shown, services)
      ensures forall s :: s in shown <==> s in services && Matches(s, searchTerm, category, statusFilter)
    {
      FilterServices(services, searchTerm, category, statusFilter)
    }

    /** Mount effect: a saved non-empty list is used as it is; otherwise the
        defaults are written to the store and used. */
    method Load()
      requires store.Valid()
      modifies this, store
      ensures store.Valid()
      ensures var saved := old(StoredServices(store.entries));
              if saved.Some? && |saved.value| > 0 then
                services == saved.value && store.entries == old(store.entries)
              else
                services == defaults &&
                store.entries == old(store.entries)[ServicesKey := ServiceList(defaults)]
      ensures searchTerm == old(searchTerm) && category == old(category) && statusFilter == old(statusFilter)
    {
      var saved := store.Get(ServicesKey);
      if saved.Some? && |saved.value.services| > 0 {
        services := saved.value.services;
      } else {
        store.Set(ServicesKey, ServiceList(defaults));
        services := defaults;
      }
    }

    /** Effect on every change of the list: a non-empty list is written back. */
    method Persist()
      requires store.Valid()
      modifies store
      ensures store.Valid()
      ensures store.entries ==
              if |services| > 0 then old(store.entries)[ServicesKey := ServiceList(services)]
              else old(store.entries)
    {
      if |services| > 0 {
        store.Set(ServicesKey, ServiceList(services));
      }
    }

    method SetFilters(term: string, newCategory: string, newStatus: string)
      modifies this
      ensures searchTerm == term && category == newCategory && statusFilter == newStatus
      ensures services == old(services)
    {
      searchTerm, category, statusFilter := term, newCategory, newStatus;
    }
  }
}
