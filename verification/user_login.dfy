/** The citizen account page: sign-up (all fields required, e-mail unique
    among stored accounts) and log-in (first account whose e-mail and
    password both match), switching between the two modes.
 */
module UserLogin {
  import opened Base
  import opened Entities
  import opened Storage
  import opened App

  const HomeRoute := "/"
  const FillAllFields := "Fill in all the fields to create an account."
  const EmailInUse := "A user with this email already exists."
  const InvalidCredentials := "Invalid credentials. Please try again or create an account."

  datatype Mode = LogIn | SignUp

  datatype AccountForm = AccountForm(name: string, email: string, password: string)

  const InitialForm := AccountForm("", "", "")

  function HasEmail(email: string): User -> bool {
    (u: User) => u.email == email
  }

  function HasCredentials(email: string, password: string): User -> bool {
    (u: User) => u.email == email && u.password == password
  }

  /** `users.some(user => user.email === email)`. */
  predicate EmailTaken(users: seq<User>, email: string) {
    Any(users, HasEmail(email))
  }

  /** `users.find(u => u.email === email && u.password === password)`. */
  function FindByCredentials(users: seq<User>, email: string, password: string): (found: Option<User>)
    ensures found.Some? ==> found.value in users && found.value.email == email && found.value.password == password
    ensures found.None? <==> forall i :: 0 <= i < |users| ==> !(users[i].email == email && users[i].password == password)
    ensures found.Some? ==> exists i :: 0 <= i < |users| && users[i] == found.value &&
                                        forall j :: 0 <= j < i ==> !(users[j].email == email && users[j].password == password)
  {
    FindFirst(users, HasCredentials(email, password))
  }

  predicate DistinctEmails(users: seq<User>) {
    forall i, j :: 0 <= i < j < |users| ==> users[i].email != users[j].email
  }

  /** An account whose e-mail is not yet taken keeps the e-mails distinct. */
  lemma SignupKeepsEmailsDistinct(users: seq<User>, u: User)
    requires DistinctEmails(users) && !EmailTaken(users, u.email)
    ensures DistinctEmails(users + [u])
  {
  }

  /** With distinct e-mails, logging in with an account's e-mail and password finds that account. */
  lemma LoginFindsTheAccount(users: seq<User>, i: int)
    requires DistinctEmails(users) && 0 <= i < |users|
    ensures FindByCredentials(users, users[i].email, users[i].password) == Some(users[i])
  {
  }

  /** A fresh account can log in straight away with the e-mail and password it signed up with. */
  lemma SignupThenLogin(users: seq<User>, u: User)
    requires !EmailTaken(users, u.email)
    ensures FindByCredentials(users + [u], u.email, u.password) == Some(u)
  {
    var all := users + [u];
    assert all[|users|] == u;
    forall j | 0 <= j < |users| ensures !HasCredentials(u.email, u.password)(all[j]) {
      assert all[j] == users[j];
      assert !HasEmail(u.email)(users[j]);
    }
  }

  class UserLoginPage {
    const app: Shell
    var mode: Mode
    var form: AccountForm
    var error: string
    var redirect: Option<string>

    constructor (app: Shell)
      ensures this.app == app
      ensures mode == LogIn && form == InitialForm && error == "" && redirect == None
    {
      this.app := app;
      mode := LogIn;
      form := InitialForm;
      error := "";
      redirect := None;
    }

    /** Effect: a citizen who is already signed in is sent home. */
    method Mount()
      modifies this
      ensures redirect == if app.currentUser.Some? then Some(HomeRoute) else old(redirect)
      ensures mode == old(mode) && form == old(form) && error == old(error)
    {
      if app.currentUser.Some? {
        redirect := Some(HomeRoute);
      }
    }

    /** The mode switch: flips the mode and resets the form and the error. */
    method ToggleMode()
      modifies this
      ensures mode == if old(mode) == SignUp then LogIn else SignUp
      ensures form == InitialForm && error == "" && redirect == old(redirect)
    {
      mode := if mode == SignUp then LogIn else SignUp;
      form := InitialForm;
      error := "";
    }

    /** `handleSubmit`, in both modes; `newId` is the id a sign-up gives the account. */
    method HandleSubmit(newId: string)
      requires app.store.Valid()
      modifies this, app, app.store
      ensures app.store.Valid()
      ensures mode == old(mode) && form == old(form)
      ensures app.isLoggedIn == old(app.isLoggedIn) && app.isDarkMode == old(app.isDarkMode)
      ensures app.redirect == old(app.redirect)
      ensures var users := old(StoredUsers(app.store.entries));
              var f := old(form);
              var account := User(newId, f.name, f.email, f.password);
              var found := FindByCredentials(users, f.email, f.password);
              if mode == SignUp then
                if !(Truthy(f.name) && Truthy(f.email) && Truthy(f.password)) then
                  error == FillAllFields && redirect == old(redirect) &&
                  app.store.entries == old(app.store.entries) && app.currentUser == old(app.currentUser)
                else if EmailTaken(users, f.email) then
                  error == EmailInUse && redirect == old(redirect) &&
                  app.store.entries == old(app.store.entries) && app.currentUser == old(app.currentUser)
                else
                  error == "" && redirect == Some(HomeRoute) && app.currentUser == Some(account) &&
                  app.store.entries == old(app.store.entries)[UsersKey := UserList(users + [account])]
                                                             [CurrentUserKey := UserRecord(account)]
              else
                if found.None? then
                  error == InvalidCredentials && redirect == old(redirect) &&
                  app.store.entries == old(app.store.entries) && app.currentUser == old(app.currentUser)
                else
                  error == "" && redirect == Some(HomeRoute) && app.currentUser == found &&
                  app.store.entries == old(app.store.entries)[CurrentUserKey := UserRecord(found.value)]
      ensures DistinctEmails(old(StoredUsers(app.store.entries))) ==> DistinctEmails(StoredUsers(app.store.entries))
    {
      var users := StoredUsers(app.store.entries);
      if mode == SignUp {
        if !Truthy(form.name) || !Truthy(form.email) || !Truthy(form.password) {
          error := FillAllFields;
          return;
        }
        if Any(users, HasEmail(form.email)) {
          error := EmailInUse;
          return;
        }
        var account := User(newId, form.name, form.email, form.password);
        if DistinctEmails(users) {
          SignupKeepsEmailsDistinct(users, account);
        }
        app.store.Set(UsersKey, UserList(users + [account]));
        app.SetCurrentUser(Some(account));
        error := "";
        redirect := Some(HomeRoute);
        return;
      }
      var found := FindFirst(users, HasCredentials(form.email, form.password));
      if found.None? {
        error := InvalidCredentials;
        return;
      }
      app.SetCurrentUser(found);
      error := "";
      redirect := Some(HomeRoute);
    }
  }
}
