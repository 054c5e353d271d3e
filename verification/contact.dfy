/** The contact page: a support ticket is validated, then appended to the
    ticket list kept in browser storage.
 */
module Contact {
  import opened Base
  import opened Entities
  import opened Storage

  const General := "general"

  datatype TicketForm = TicketForm(name: string, email: string, topic: string, message: string)

  const InitialForm := TicketForm("", "", General, "")

  /** Name, e-mail and message are required; the topic always has a value. */
  predicate Complete(f: TicketForm) {
    Truthy(f.name) && Truthy(f.email) && Truthy(f.message)
  }

  /** The ticket stored for a form, with its fresh id and timestamp. */
  function TicketOf(f: TicketForm, id: string, createdAt: string): (t: Ticket)
    ensures t.name == f.name && t.email == f.email && t.topic == f.topic && t.message == f.message
    ensures t.id == id && t.createdAt == createdAt
  {
    Ticket(id, f.name, f.email, f.topic, f.message, createdAt)
  }

  class ContactPage {
    const store: Store
    var form: TicketForm
    var status: SubmitStatus

    constructor (store: Store)
      ensures this.store == store && form == InitialForm && status == Idle
    {
      this.store := store;
      form := InitialForm;
      status := Idle;
    }

    /** `handleSubmit`: an incomplete form only sets the error status; a
        complete one appends its ticket to the stored list, sets the success
        status and resets the form. */
    method HandleSubmit(newId: string, createdAt: string)
      requires store.Valid()
      modifies this, store
      ensures store.Valid()
      ensures !Complete(old(form)) ==>
                status == Error && form == old(form) && store.entries == old(store.entries)
      ensures Complete(old(form)) ==>
                status == Success && form == InitialForm &&
                store.entries == old(store.entries)[TicketsKey :=
                  TicketList(old(StoredTickets(store.entries)) + [TicketOf(old(form), newId, createdAt)])]
    {
      if !Complete(form) {
        status := Error;
        return;
      }
      var ticket := TicketOf(form, newId, createdAt);
      var stored := store.Get(TicketsKey);
      var tickets := if stored.Some? then stored.value.tickets else [];
      tickets := tickets + [ticket];
      store.Set(TicketsKey, TicketList(tickets));
      status := Success;
      form := InitialForm;
    }
  }

  /** Two complete submissions in a row leave both tickets at the end of the
      stored list, in order, after the earlier ones. */
  method SubmitTwice(page: ContactPage, first: TicketForm, second: TicketForm,
                     id1: string, id2: string, at1: string, at2: string)
    requires page.store.Valid() && Complete(first) && Complete(second)
    modifies page, page.store
    ensures page.store.Valid()
    ensures StoredTickets(page.store.entries) ==
              old(StoredTickets(page.store.entries)) + [TicketOf(first, id1, at1), TicketOf(second, id2, at2)]
  {
    page.form := first;
    page.HandleSubmit(id1, at1);
    page.form := second;
    page.HandleSubmit(id2, at2);
  }
}
