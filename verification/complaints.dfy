/** The citizen complaints page: the list loaded from the server, the form
    (prefilled from the signed-in citizen), and the submit operation that
    validates, builds the record, posts it and prepends what the server saved.
 */
module Complaints {
  import opened Base
  import opened Entities
  import opened Storage
  import opened ServiceNames
  import opened AdminUsers
  import opened App

  const Medium := "medium"
  const Open := "open"

  datatype ComplaintForm = ComplaintForm(
    serviceId: string,
    name: string,
    contact: string,
    priority: string,
    description: string)

  const InitialForm := ComplaintForm("", "", "", Medium, "")

  /** A service, a name and a description are required; contact is not. */
  predicate Complete(f: ComplaintForm) {
    Truthy(f.serviceId) && Truthy(f.name) && Truthy(f.description)
  }

  /** `currentUser?.id || null`. */
  function OwnerId(currentUser: Option<User>): (userId: Option<string>)
    ensures userId.Some? <==> currentUser.Some? && currentUser.value.id != ""
    ensures userId.Some? ==> userId.value == currentUser.value.id
  {
    if currentUser.Some? && Truthy(currentUser.value.id) then Some(currentUser.value.id) else None
  }

  /** The record posted to the server: the form's fields, a fresh id and
      timestamp, status "open", and the citizen's id when there is one. */
  function BuildComplaint(f: ComplaintForm, id: string, createdAt: string, currentUser: Option<User>)
    : (c: Complaint)
    ensures c.id == id && c.createdAt == createdAt && c.status == Open
    ensures c.serviceId == f.serviceId && c.name == f.name && c.contact == f.contact
    ensures c.priority == f.priority && c.description == f.description
    ensures c.userId == OwnerId(currentUser)
  {
    Complaint(id, f.serviceId, f.name, f.contact, f.priority, f.description, Open, createdAt,
              OwnerId(currentUser))
  }

  /** The form after a successful submit: empty except priority "medium" and
      the citizen's name and email. */
  function ResetForm(currentUser: Option<User>): (f: ComplaintForm)
    ensures f.serviceId == "" && f.description == "" && f.priority == Medium
    ensures currentUser.None? ==> f == InitialForm
    ensures currentUser.Some? ==> f.name == currentUser.value.name && f.contact == currentUser.value.email
  {
    ComplaintForm("", if currentUser.Some? then currentUser.value.name else "",
                  if currentUser.Some? then currentUser.value.email else "", Medium, "")
  }

  /** The prefill effect applied to a form. */
  function Prefilled(f: ComplaintForm, currentUser: Option<User>): (g: ComplaintForm)
    ensures currentUser.None? ==> g == f
    ensures currentUser.Some? ==> g.name == currentUser.value.name && g.contact == currentUser.value.email
    ensures g.serviceId == f.serviceId && g.priority == f.priority && g.description == f.description
  {
    if currentUser.Some? then f.(name := currentUser.value.name, contact := currentUser.value.email) else f
  }

  /** After a successful submit the form is what a freshly opened page shows
      once the prefill has run. */
  lemma ResetIsPrefilledInitialForm(currentUser: Option<User>)
    ensures ResetForm(currentUser) == Prefilled(InitialForm, currentUser)
  {
  }

  /** The name a complaint row shows: the registered user's name, else the
      name on the complaint (which may be empty; there is no "Guest" here). */
  function ListedName(users: seq<User>, c: Complaint): (name: string)
    ensures var u := FindUser(users, c.userId);
            name == if u.Some? && u.value.name != "" then u.value.name else c.name
  {
    var u := FindUser(users, c.userId);
    OrElse(if u.Some? then u.value.name else "", c.name)
  }

  /** The complaints page and the admin page agree on the submitter's name
      except where the complaints page would show nothing. */
  lemma ListedNameAgreesWithAdmin(users: seq<User>, c: Complaint)
    ensures ListedName(users, c) != "" ==> SubmitterName(users, c) == ListedName(users, c)
    ensures ListedName(users, c) == "" ==> SubmitterName(users, c) == GuestName
  {
  }

  /** A complaint filed by a signed-in citizen with an id counts once more
      toward that citizen on the admin page, and toward no other id. */
  lemma FiledComplaintCounts(complaints: seq<Complaint>, f: ComplaintForm, id: string, createdAt: string,
                             u: User, other: string)
    requires u.id != "" && other != u.id
    ensures var c := BuildComplaint(f, id, createdAt, Some(u));
            CountFor([c] + complaints, u.id) == CountFor(complaints, u.id) + 1 &&
            CountFor([c] + complaints, other) == CountFor(complaints, other)
  {
  }

  /** A complaint filed without a signed-in citizen is a guest complaint:
      it counts toward no user. */
  lemma GuestComplaintCountsForNobody(complaints: seq<Complaint>, f: ComplaintForm, id: string,
                                      createdAt: string, userId: string)
    ensures var c := BuildComplaint(f, id, createdAt, None);
            IsGuest(c) &&
            CountFor([c] + complaints, userId) == CountFor(complaints, userId) &&
            GuestCount([c] + complaints) == GuestCount(complaints) + 1
  {
  }

  class ComplaintsPage {
    /** The shell whose outlet context (the citizen) the page reads. */
    const app: Shell
    var services: seq<Service>
    var complaints: seq<Complaint>
    var users: seq<User>
    var form: ComplaintForm
    var status: SubmitStatus

    constructor (app: Shell)
      ensures this.app == app
      ensures services == [] && complaints == [] && users == []
      ensures form == InitialForm && status == Idle
    {
      this.app := app;
      services, complaints, users := [], [], [];
      form := InitialForm;
      status := Idle;
    }

    /** Mount effect: services, then complaints from the server, then users
        from the store; a request that throws (None) stops the sequence. */
    method Load(servicesBody: Option<seq<Service>>, complaintsBody: Option<seq<Complaint>>)
      requires app.store.Valid()
      modifies this
      ensures services == if servicesBody.Some? then servicesBody.value else old(services)
      ensures complaints == if servicesBody.Some? && complaintsBody.Some? then complaintsBody.value
                            else old(complaints)
      ensures users == if servicesBody.Some? && complaintsBody.Some? then StoredUsers(app.store.entries)
                       else old(users)
      ensures form == old(form) && status == old(status)
    {
      if servicesBody.None? {
        return;
      }
      services := servicesBody.value;
      if complaintsBody.None? {
        return;
      }
      complaints := complaintsBody.value;
      users := StoredUsers(app.store.entries);
    }

    /** Effect on the citizen, run on mount and whenever the shell's citizen
        changes: their name and email fill the form. With no citizen the form
        is left as it is, so a citizen who logs out leaves their name behind. */
    method Prefill()
      modifies this
      ensures form == Prefilled(old(form), app.currentUser)
      ensures services == old(services) && complaints == old(complaints) && users == old(users)
      ensures status == old(status)
    {
      if app.currentUser.Some? {
        form := form.(name := app.currentUser.value.name, contact := app.currentUser.value.email);
      }
    }

    /** `handleSubmit`. An incomplete form only sets the error status and
        sends nothing. Otherwise the built record is posted (returned as
        `posted`); a 2xx answer prepends the complaint the server saved and
        resets the form, anything else sets the error status and keeps the
        list and the form. */
    method HandleSubmit(newId: string, createdAt: string, response: Response<Complaint>)
      returns (posted: Option<Complaint>)
      modifies this
      ensures !Complete(old(form)) ==>
                posted == None && status == Error && complaints == old(complaints) && form == old(form)
      ensures Complete(old(form)) ==>
                posted == Some(BuildComplaint(old(form), newId, createdAt, app.currentUser))
      ensures Complete(old(form)) && response.Ok? ==>
                complaints == [response.payload] + old(complaints) &&
                form == ResetForm(app.currentUser) && status == Success
      ensures Complete(old(form)) && !response.Ok? ==>
                complaints == old(complaints) && form == old(form) && status == Error
      ensures services == old(services) && users == old(users)
    {
      if !Complete(form) {
        status := Error;
        return None;
      }
      var record := BuildComplaint(form, newId, createdAt, app.currentUser);
      posted := Some(record);
      match response {
        case Ok(saved) =>
          complaints := [saved] + complaints;
          form := ResetForm(app.currentUser);
          status := Success;
        case NotOk =>
          status := Error;
        case Threw =>
          status := Error;
      }
    }

    /** The service label of a complaint row. */
    function RowLabel(c: Complaint): (text: string)
      reads this
      ensures text != ""
      ensures (forall j :: 0 <= j < |services| ==> PropertyKey(services[j].id) != c.serviceId) ==>
                text == UnknownService
      ensures c.serviceId in LookupOf(services) && LookupOf(services)[c.serviceId] != "" ==>
                text == LookupOf(services)[c.serviceId]
      ensures c.serviceId in LookupOf(services) && LookupOf(services)[c.serviceId] == "" ==>
                text == UnknownService
    {
      LookupKeys(services, c.serviceId);
      ServiceLabel(LookupOf(services), c.serviceId)
    }
  }

  /** A citizen who logs out from the header while the page is open leaves
      their name and e-mail in the form: the prefill re-runs but does nothing
      without a citizen, so the next complete submit posts a guest complaint
      under the departed citizen's name. */
  method SubmitAfterLogout(page: ComplaintsPage, u: User, f: ComplaintForm, newId: string,
                           createdAt: string, response: Response<Complaint>)
    returns (posted: Option<Complaint>)
    requires page.app.store.Valid() && page.app.currentUser == Some(u)
    requires Truthy(f.serviceId) && Truthy(f.description) && Truthy(u.name)
    modifies page, page.app, page.app.store
    ensures posted.Some?
    ensures posted.value.userId == None && IsGuest(posted.value)
    ensures posted.value.name == u.name && posted.value.contact == u.email
  {
    page.form := f;
    page.Prefill();
    page.app.HandleUserLogout();
    page.Prefill();
    posted := page.HandleSubmit(newId, createdAt, response);
  }
}
