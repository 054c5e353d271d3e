/** Browser storage (`localStorage`) shared by every page: a map from key to
    the value the pages wrote there. A value stands for the JSON text after
    decoding, tagged by the shape the pages give it.
 */
module Storage {
  import opened Base
  import opened Entities

  datatype Value =
    | Text(text: string)
    | ServiceList(services: seq<Service>)
    | UserList(users: seq<User>)
    | UserRecord(user: User)
    | TicketList(tickets: seq<Ticket>)

  const ThemeKey := "theme"
  const LoggedInKey := "isLoggedIn"
  const CurrentUserKey := "currentUser"
  const UsersKey := "users"
  const ServicesKey := "services"
  const TicketsKey := "supportTickets"

  /** The shape each page writes under a key; other keys are unconstrained. */
  predicate Fits(key: string, v: Value) {
    && (key == ThemeKey || key == LoggedInKey ==> v.Text?)
    && (key == CurrentUserKey ==> v.UserRecord?)
    && (key == UsersKey ==> v.UserList?)
    && (key == ServicesKey ==> v.ServiceList?)
    && (key == TicketsKey ==> v.TicketList?)
  }

  predicate WellFormed(entries: map<string, Value>) {
    forall key :: key in entries ==> Fits(key, entries[key])
  }

  /** `localStorage.getItem(key) === "true"` for the admin flag. */
  predicate AdminFlag(entries: map<string, Value>) {
    LoggedInKey in entries && entries[LoggedInKey] == Text("true")
  }

  /** The flag reads "true" after a write exactly when that write put "true"
      under the flag's key, or touched another key and the flag was already set;
      removing the key clears it. */
  lemma AdminFlagAfterWrite(entries: map<string, Value>, key: string, v: Value)
    ensures AdminFlag(entries[key := v]) <==>
              if key == LoggedInKey then v == Text("true") else AdminFlag(entries)
    ensures AdminFlag(entries - {key}) <==> key != LoggedInKey && AdminFlag(entries)
  {
  }

  /** The stored theme string, "" when absent (absent and "" are both falsy). */
  function StoredTheme(entries: map<string, Value>): (theme: string)
    requires WellFormed(entries)
    ensures ThemeKey !in entries ==> theme == ""
    ensures ThemeKey in entries ==> entries[ThemeKey] == Text(theme)
  {
    if ThemeKey in entries then entries[ThemeKey].text else ""
  }

  /** `stored ? JSON.parse(stored) : null` for the current user record. */
  function StoredUser(entries: map<string, Value>): (u: Option<User>)
    requires WellFormed(entries)
    ensures u.Some? <==> CurrentUserKey in entries
    ensures u.Some? ==> entries[CurrentUserKey] == UserRecord(u.value)
  {
    if CurrentUserKey in entries then Some(entries[CurrentUserKey].user) else None
  }

  /** `JSON.parse(localStorage.getItem("users") || "[]")`. */
  function StoredUsers(entries: map<string, Value>): (users: seq<User>)
    requires WellFormed(entries)
    ensures UsersKey !in entries ==> users == []
    ensures UsersKey in entries ==> entries[UsersKey] == UserList(users)
  {
    if UsersKey in entries then entries[UsersKey].users else []
  }

  /** The stored service list, if any. */
  function StoredServices(entries: map<string, Value>): (services: Option<seq<Service>>)
    requires WellFormed(entries)
    ensures services.Some? <==> ServicesKey in entries
    ensures services.Some? ==> entries[ServicesKey] == ServiceList(services.value)
  {
    if ServicesKey in entries then Some(entries[ServicesKey].services) else None
  }

  /** `JSON.parse(localStorage.getItem("supportTickets") || "[]")`. */
  function StoredTickets(entries: map<string, Value>): (tickets: seq<Ticket>)
    requires WellFormed(entries)
    ensures TicketsKey !in entries ==> tickets == []
    ensures TicketsKey in entries ==> entries[TicketsKey] == TicketList(tickets)
  {
    if TicketsKey in entries then entries[TicketsKey].tickets else []
  }

  /** The per-origin store. Every write is visible to the next read. */
  class Store {
    var entries: map<string, Value>

    ghost predicate Valid()
      reads this
    {
      WellFormed(entries)
    }

    constructor (initial: map<string, Value>)
      requires WellFormed(initial)
      ensures Valid() && entries == initial
    {
      entries := initial;
    }

    /** `localStorage.getItem(key)`. */
    function Get(key: string): (v: Option<Value>)
      reads this
      ensures v.Some? <==> key in entries
      ensures v.Some? ==> v.value == entries[key]
    {
      if key in entries then Some(entries[key]) else None
    }

    /** `localStorage.setItem(key, JSON.stringify(v))`. */
    method Set(key: string, v: Value)
      requires Valid() && Fits(key, v)
      modifies this
      ensures Valid()
      ensures entries == old(entries)[key := v]
      ensures Get(key) == Some(v)
    {
      entries := entries[key := v];
    }

    /** `localStorage.removeItem(key)`. */
    method Remove(key: string)
      requires Valid()
      modifies this
      ensures Valid()
      ensures entries == old(entries) - {key}
      ensures Get(key) == None
    {
      entries := entries - {key};
    }
  }
}
