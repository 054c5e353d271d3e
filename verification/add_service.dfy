/** The admin's "add service" page: the login gate on load, the form and its
    reset, and the add operation (validation, fresh id, defaults, append and
    write-back to storage).
 */
module AddService {
  import opened Base
  import opened Entities
  import opened Storage
  import opened ServiceNames
  import opened ServiceDirectory

  const DefaultHours := "Contact for hours"
  const Operational := "operational"

  datatype ServiceForm = ServiceForm(
    name: string,
    category: string,
    status: string,
    address: string,
    phone: string,
    hours: string,
    description: string)

  /** The initial and the cleared form. */
  const EmptyForm := ServiceForm("", "", Operational, "", "", "", "")

  /** Name, category, address and description are required; phone and hours are not. */
  predicate Complete(f: ServiceForm) {
    Truthy(f.name) && Truthy(f.category) && Truthy(f.address) && Truthy(f.description)
  }

  /** `Math.max(...ids)` over a non-empty list. */
  function MaxId(services: seq<Service>): (m: int)
    requires |services| > 0
    ensures forall i :: 0 <= i < |services| ==> services[i].id <= m
    ensures exists i :: 0 <= i < |services| && services[i].id == m
  {
    if |services| == 1 then services[0].id
    else
      var rest := MaxId(services[1..]);
      assert forall i :: 1 <= i < |services| ==> services[i] == services[1..][i - 1];
      if services[0].id >= rest then services[0].id else rest
  }

  /** The id of a new service: 1 for an empty list, one more than the largest id otherwise. */
  function NextServiceId(services: seq<Service>): (id: int)
    ensures |services| == 0 ==> id == 1
    ensures |services| > 0 ==> exists i :: 0 <= i < |services| && id == services[i].id + 1
    ensures forall i :: 0 <= i < |services| ==> services[i].id < id
  {
    if |services| > 0 then MaxId(services) + 1 else 1
  }

  /** The record built from a complete form. */
  function NewService(services: seq<Service>, f: ServiceForm): (s: Service)
    ensures s.id == NextServiceId(services)
    ensures s.name == f.name && s.category == f.category && s.status == f.status
    ensures s.address == f.address && s.phone == f.phone && s.description == f.description
    ensures Truthy(f.hours) ==> s.hours == f.hours
    ensures !Truthy(f.hours) ==> s.hours == DefaultHours
    ensures s.rating == 0.0 && s.image == None
  {
    Service(NextServiceId(services), f.name, f.category, f.address, f.phone,
            OrElse(f.hours, DefaultHours), f.description, f.status, 0.0, None)
  }

  /** The fresh id keeps the ids distinct. */
  lemma AddKeepsIdsDistinct(services: seq<Service>, f: ServiceForm)
    requires DistinctIds(services)
    ensures DistinctIds(services + [NewService(services, f)])
  {
  }

  /** Starting from any list with distinct ids, any number of adds keeps them distinct. */
  lemma {:induction false} RepeatedAddsKeepIdsDistinct(services: seq<Service>, forms: seq<ServiceForm>)
    requires DistinctIds(services)
    ensures DistinctIds(AddAll(services, forms))
    decreases |forms|
  {
    if forms != [] {
      AddKeepsIdsDistinct(services, forms[0]);
      RepeatedAddsKeepIdsDistinct(services + [NewService(services, forms[0])], forms[1..]);
    }
  }

  /** The list after adding one service per form, in order. */
  function AddAll(services: seq<Service>, forms: seq<ServiceForm>): (result: seq<Service>)
    ensures |result| == |services| + |forms|
    ensures result[..|services|] == services
    decreases |forms|
  {
    if forms == [] then services
    else
      var next := services + [NewService(services, forms[0])];
      var result := AddAll(next, forms[1..]);
      assert result[..|services|] == result[..|next|][..|services|];
      result
  }

  /** A service just added is shown by the directory under its default filters. */
  lemma AddedServiceIsListed(services: seq<Service>, f: ServiceForm)
    ensures NewService(services, f) in FilterServices(services + [NewService(services, f)], "", All, All)
  {
    var all := services + [NewService(services, f)];
    FilterServicesShowsAll(all);
    assert all[|services|] == NewService(services, f);
  }

  class AddServicePage {
    const store: Store
    var isLoggedIn: bool
    var services: seq<Service>
    var form: ServiceForm
    var success: bool
    var redirect: Option<string>

    constructor (store: Store)
      ensures this.store == store
      ensures !isLoggedIn && services == [] && form == EmptyForm && !success && redirect == None
    {
      this.store := store;
      isLoggedIn := false;
      services := [];
      form := EmptyForm;
      success := false;
      redirect := None;
    }

    /** Mount effect: read the admin flag and the stored list (none reads as
        empty); without the flag, send the visitor to the login page. */
    method Load()
      requires store.Valid()
      modifies this
      ensures isLoggedIn == AdminFlag(store.entries)
      ensures var saved := StoredServices(store.entries);
              services == if saved.Some? then saved.value else []
      ensures redirect == if isLoggedIn then old(redirect) else Some(LoginRoute)
      ensures form == old(form) && success == old(success)
    {
      isLoggedIn := store.Get(LoggedInKey) == Some(Text("true"));
      var saved := store.Get(ServicesKey);
      services := if saved.Some? then saved.value.services else [];
      if !isLoggedIn {
        redirect := Some(LoginRoute);
      }
    }

    method ClearForm()
      modifies this
      ensures form == EmptyForm
      ensures isLoggedIn == old(isLoggedIn) && services == old(services)
      ensures success == old(success) && redirect == old(redirect)
    {
      form := EmptyForm;
    }

    /** `handleAddService`: an incomplete form changes nothing; a complete one
        appends the new service, writes the whole list to storage, flags
        success and clears the form. */
    method HandleAddService()
      requires store.Valid()
      modifies this, store
      ensures store.Valid()
      ensures !Complete(old(form)) ==>
                services == old(services) && store.entries == old(store.entries) &&
                form == old(form) && success == old(success)
      ensures Complete(old(form)) ==>
                services == old(services) + [NewService(old(services), old(form))] &&
                store.entries == old(store.entries)[ServicesKey := ServiceList(services)] &&
                success && form == EmptyForm
      ensures DistinctIds(old(services)) ==> DistinctIds(services)
      ensures isLoggedIn == old(isLoggedIn) && redirect == old(redirect)
    {
      if !Complete(form) {
        return;
      }
      var newService := NewService(services, form);
      if DistinctIds(services) {
        AddKeepsIdsDistinct(services, form);
      }
      var updated := services + [newService];
      services := updated;
      store.Set(ServicesKey, ServiceList(updated));
      success := true;
      ClearForm();
    }
  }
}
