/** The admin users page: the per-user complaint counts (a `reduce` into an
    object that skips guest complaints), the complaint search over resolved
    service and submitter names, and the delete that removes a complaint
    from the list only once the server has confirmed.
 */
module AdminUsers {
  import opened Base
  import opened Entities
  import opened Storage
  import opened ServiceNames
  import opened App

  const GuestName := "Guest"

  // ---------------------------------------------------------------------
  // Complaints per user
  // ---------------------------------------------------------------------

  /** `!complaint.userId`: no user id, or the empty one. */
  predicate IsGuest(c: Complaint) {
    c.userId.None? || c.userId.value == ""
  }

  /** The complaint is counted under `id`. */
  predicate Owns(c: Complaint, id: string) {
    !IsGuest(c) && c.userId.value == id
  }

  function OwnedBy(id: string): Complaint -> bool {
    (c: Complaint) => Owns(c, id)
  }

  /** How many complaints are counted under `id`. */
  function CountFor(complaints: seq<Complaint>, id: string): nat {
    |Filter(complaints, OwnedBy(id))|
  }

  function GuestCount(complaints: seq<Complaint>): nat {
    |Filter(complaints, IsGuest)|
  }

  /** Sum of the values of a map, key by key in an arbitrary order. */
  ghost function SumValues(m: map<string, nat>): nat
    decreases |m|
  {
    if m == map[] then 0
    else
      var k :| k in m;
      m[k] + SumValues(m - {k})
  }

  /** The sum does not depend on which key is taken first. */
  lemma {:induction false} SumValuesRemove(m: map<string, nat>, k: string)
    requires k in m
    ensures SumValues(m) == m[k] + SumValues(m - {k})
    decreases |m|
  {
    var j :| j in m && SumValues(m) == m[j] + SumValues(m - {j});
    if j != k {
      SumValuesRemove(m - {j}, k);
      SumValuesRemove(m - {k}, j);
      assert m - {j} - {k} == m - {k} - {j};
    }
  }

  /** `acc[k] = (acc[k] || 0) + 1` raises the sum by one. */
  lemma SumValuesIncrement(m: map<string, nat>, k: string)
    ensures SumValues(m[k := (if k in m then m[k] else 0) + 1]) == SumValues(m) + 1
  {
    var m' := m[k := (if k in m then m[k] else 0) + 1];
    SumValuesRemove(m', k);
    if k in m {
      SumValuesRemove(m, k);
      assert m' - {k} == m - {k};
    } else {
      assert m' - {k} == m;
    }
  }

  /** `counts` holds, for every id with at least one complaint, that id's count. */
  ghost predicate Tallies(counts: map<string, nat>, complaints: seq<Complaint>) {
    forall id :: if id in counts then counts[id] == CountFor(complaints, id) && counts[id] > 0
                 else CountFor(complaints, id) == 0
  }

  /** One step of the reduce: a guest complaint leaves the accumulator as it
      is, any other raises its user's entry by one. */
  function Tally(counts: map<string, nat>, c: Complaint): map<string, nat> {
    if IsGuest(c) then counts
    else
      var uid := c.userId.value;
      counts[uid := (if uid in counts then counts[uid] else 0) + 1]
  }

  lemma TallyStepCounts(counts: map<string, nat>, done: seq<Complaint>, c: Complaint)
    requires Tallies(counts, done)
    ensures Tallies(Tally(counts, c), done + [c])
  {
    var after := Tally(counts, c);
    forall id ensures if id in after then after[id] == CountFor(done + [c], id) && after[id] > 0
                      else CountFor(done + [c], id) == 0
    {
      FilterSnoc(done, c, OwnedBy(id));
      assert CountFor(done + [c], id) == CountFor(done, id) + (if Owns(c, id) then 1 else 0);
    }
  }

  lemma TallyStepSum(counts: map<string, nat>, done: seq<Complaint>, c: Complaint)
    requires SumValues(counts) + GuestCount(done) == |done|
    ensures SumValues(Tally(counts, c)) + GuestCount(done + [c]) == |done| + 1
  {
    FilterSnoc(done, c, IsGuest);
    if !IsGuest(c) {
      SumValuesIncrement(counts, c.userId.value);
    }
  }

  /** The loop invariant of the tally: the counts so far, and every complaint
      seen so far accounted for once. */
  ghost predicate Accounts(counts: map<string, nat>, done: seq<Complaint>) {
    Tallies(counts, done) && SumValues(counts) + GuestCount(done) == |done|
  }

  lemma TallyStep(counts: map<string, nat>, done: seq<Complaint>, c: Complaint)
    requires Accounts(counts, done)
    ensures Accounts(Tally(counts, c), done + [c])
  {
    TallyStepCounts(counts, done, c);
    TallyStepSum(counts, done, c);
  }

  /** `complaintsByUser`. Every complaint lands either in exactly one user's
      count or among the guests. */
  method ComplaintsByUser(complaints: seq<Complaint>) returns (counts: map<string, nat>)
    ensures Tallies(counts, complaints)
    ensures SumValues(counts) + GuestCount(complaints) == |complaints|
  {
    counts := map[];
    ghost var done: seq<Complaint> := [];
    for i := 0 to |complaints|
      invariant done == complaints[..i]
      invariant Accounts(counts, done)
    {
      var c := complaints[i];
      TallyStep(counts, done, c);
      counts := Tally(counts, c);
      done := done + [c];
    }
    assert done == complaints;
  }

  /** `complaintsByUser[user.id] || 0`. */
  function DisplayedCount(counts: map<string, nat>, id: string): (shown: nat)
    ensures id !in counts ==> shown == 0
    ensures id in counts ==> shown == counts[id]
  {
    if id in counts && counts[id] != 0 then counts[id] else 0
  }

  /** Each user row shows that user's count, 0 for a user without complaints. */
  lemma DisplayedCountIsCount(counts: map<string, nat>, complaints: seq<Complaint>, id: string)
    requires Tallies(counts, complaints)
    ensures DisplayedCount(counts, id) == CountFor(complaints, id)
    ensures (forall i :: 0 <= i < |complaints| ==> complaints[i].userId != Some(id)) ==>
              DisplayedCount(counts, id) == 0
  {
    if forall i :: 0 <= i < |complaints| ==> complaints[i].userId != Some(id) {
      var owned := Filter(complaints, OwnedBy(id));
      if |owned| > 0 {
        // The first counted complaint would be one carrying `id`.
        var first := owned[0];
        FilterMembership(complaints, OwnedBy(id), first);
      }
    }
  }

  /** The count under a non-empty id is the number of complaints carrying it. */
  lemma CountIsComplaintsWithId(complaints: seq<Complaint>, id: string)
    requires id != ""
    ensures CountFor(complaints, id) == |Filter(complaints, (c: Complaint) => c.userId == Some(id))|
  {
    FilterSamePredicate(complaints, OwnedBy(id), (c: Complaint) => c.userId == Some(id));
  }

  /** A guest complaint contributes to no user's count. */
  lemma GuestCountsForNoUser(complaints: seq<Complaint>, c: Complaint, id: string)
    requires IsGuest(c)
    ensures CountFor(complaints + [c], id) == CountFor(complaints, id)
    ensures GuestCount(complaints + [c]) == GuestCount(complaints) + 1
  {
    FilterSnoc(complaints, c, OwnedBy(id));
    FilterSnoc(complaints, c, IsGuest);
  }

  // ---------------------------------------------------------------------
  // Complaint search
  // ---------------------------------------------------------------------

  /** `users.find((u) => u.id === c.userId)`. */
  function FindUser(users: seq<User>, userId: Option<string>): (found: Option<User>)
    ensures found.Some? ==> found.value in users && userId == Some(found.value.id)
    ensures found.None? ==> forall i :: 0 <= i < |users| ==> userId != Some(users[i].id)
    ensures found.Some? ==> exists i :: 0 <= i < |users| && users[i] == found.value &&
                                        forall j :: 0 <= j < i ==> userId != Some(users[j].id)
  {
    FindFirst(users, (u: User) => userId == Some(u.id))
  }

  /** The submitter shown for a complaint: the registered user's name, else
      the name on the complaint, else "Guest". */
  function SubmitterName(users: seq<User>, c: Complaint): (name: string)
    ensures name != ""
    ensures var u := FindUser(users, c.userId);
            name == if u.Some? && u.value.name != "" then u.value.name
                    else if c.name != "" then c.name
                    else GuestName
  {
    var u := FindUser(users, c.userId);
    OrElse(OrElse(if u.Some? then u.value.name else "", c.name), GuestName)
  }

  /** The search predicate: the lowered term occurs in the lowered service
      name (missing → ""), submitter name, or description. */
  predicate SearchMatches(c: Complaint, users: seq<User>, lookup: map<string, string>, term: string) {
    var t := Lower(term);
    Includes(Lower(Prop(lookup, c.serviceId)), t) ||
    Includes(Lower(SubmitterName(users, c)), t) ||
    Includes(Lower(c.description), t)
  }

  function SearchComplaints(complaints: seq<Complaint>, users: seq<User>, lookup: map<string, string>, term: string)
    : (shown: seq<Complaint>)
    ensures IsSubsequence(shown, complaints)
    ensures forall c :: c in shown <==> c in complaints && SearchMatches(c, users, lookup, term)
    ensures forall c :: multiset(shown)[c] ==
                        if SearchMatches(c, users, lookup, term) then multiset(complaints)[c] else 0
  {
    var p := (c: Complaint) => SearchMatches(c, users, lookup, term);
    FilterIsSubsequence(complaints, p);
    forall c ensures c in Filter(complaints, p) <==> c in complaints && p(c) {
      FilterMembership(complaints, p, c);
    }
    forall c ensures multiset(Filter(complaints, p))[c] == if p(c) then multiset(complaints)[c] else 0 {
      FilterMultiplicity(complaints, p, c);
    }
    Filter(complaints, p)
  }

  /** The empty search term keeps every complaint. */
  lemma SearchEmptyKeepsAll(complaints: seq<Complaint>, users: seq<User>, lookup: map<string, string>)
    ensures SearchComplaints(complaints, users, lookup, "") == complaints
  {
    forall i | 0 <= i < |complaints| ensures SearchMatches(complaints[i], users, lookup, "") {
      IncludesEmpty(Lower(Prop(lookup, complaints[i].serviceId)));
    }
    FilterKeepsAll(complaints, (c: Complaint) => SearchMatches(c, users, lookup, ""));
  }

  // ---------------------------------------------------------------------
  // Delete
  // ---------------------------------------------------------------------

  function HasId(id: string): Complaint -> bool {
    (c: Complaint) => c.id == id
  }

  function NotId(id: string): Complaint -> bool {
    (c: Complaint) => c.id != id
  }

  /** `prev.filter(c => c.id !== id)`: exactly the complaints with that id go,
      the others stay in order. */
  function WithoutComplaint(complaints: seq<Complaint>, id: string): (rest: seq<Complaint>)
    ensures IsSubsequence(rest, complaints)
    ensures forall c :: c in rest <==> c in complaints && c.id != id
    ensures |rest| + |Filter(complaints, HasId(id))| == |complaints|
  {
    FilterIsSubsequence(complaints, NotId(id));
    forall c ensures c in Filter(complaints, NotId(id)) <==> c in complaints && c.id != id {
      FilterMembership(complaints, NotId(id), c);
    }
    FilterSplitsLength(complaints, NotId(id), HasId(id));
    Filter(complaints, NotId(id))
  }

  // ---------------------------------------------------------------------
  // The page
  // ---------------------------------------------------------------------

  class AdminUsersPage {
    /** The shell whose outlet context (the admin flag) the page reads. */
    const app: Shell
    var users: seq<User>
    var complaints: seq<Complaint>
    var services: seq<Service>
    var searchTerm: string
    var redirect: Option<string>

    constructor (app: Shell)
      ensures this.app == app
      ensures users == [] && complaints == [] && services == [] && searchTerm == "" && redirect == None
    {
      this.app := app;
      users, complaints, services := [], [], [];
      searchTerm := "";
      redirect := None;
    }

    /** Effect, run on mount and whenever the shell's admin flag changes: a
        visitor who is not the admin is sent to the login page. */
    method CheckAccess()
      modifies this
      ensures redirect == if app.isLoggedIn then old(redirect) else Some(LoginRoute)
      ensures users == old(users) && complaints == old(complaints) && services == old(services)
      ensures searchTerm == old(searchTerm)
    {
      if !app.isLoggedIn {
        redirect := Some(LoginRoute);
      }
    }

    /** Mount effect: users from the store, then complaints and services from
        the server; a request that throws stops the sequence (None). */
    method Load(complaintsBody: Option<seq<Complaint>>, servicesBody: Option<seq<Service>>)
      requires app.store.Valid()
      modifies this
      ensures users == StoredUsers(app.store.entries)
      ensures complaints == if complaintsBody.Some? then complaintsBody.value else old(complaints)
      ensures services == if complaintsBody.Some? && servicesBody.Some? then servicesBody.value
                          else old(services)
      ensures searchTerm == old(searchTerm) && redirect == old(redirect)
    {
      users := StoredUsers(app.store.entries);
      if complaintsBody.Some? {
        complaints := complaintsBody.value;
        if servicesBody.Some? {
          services := servicesBody.value;
        }
      }
    }

    /** `handleDelete`: nothing happens unless the admin confirms; the list
        changes only on a 2xx answer. Returns whether the request was sent. */
    method HandleDelete(id: string, confirmed: bool, response: Response<()>) returns (sent: bool)
      modifies this
      ensures sent == confirmed
      ensures complaints == if confirmed && response.Ok? then WithoutComplaint(old(complaints), id)
                            else old(complaints)
      ensures users == old(users) && services == old(services) && searchTerm == old(searchTerm)
      ensures redirect == old(redirect)
    {
      if !confirmed {
        return false;
      }
      sent := true;
      match response {
        case Ok(_) => complaints := WithoutComplaint(complaints, id);
        case NotOk =>
        case Threw =>
      }
    }

    /** The complaint rows the table shows for the current search, with
        service names taken from the page's own service list. */
    function Shown(): (shown: seq<Complaint>)
      reads this
      ensures IsSubsequence(shown, complaints)
      ensures forall c :: c in shown <==> c in complaints && SearchMatches(c, users, LookupOf(services), searchTerm)
    {
      SearchComplaints(complaints, users, LookupOf(services), searchTerm)
    }
  }
}
