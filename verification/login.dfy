/** The admin login page: a two-state flag gated on one fixed credential
    pair, kept in browser storage so that it survives a reload.
 */
module AdminLogin {
  import opened Base
  import opened Storage
  import opened App

  const AdminUsername := "admin"
  const AdminPassword := "admin123"
  const AddServiceRoute := "/add-service"
  const InvalidAdmin := "Invalid credentials. Try admin / admin123"

  predicate IsAdminCredentials(username: string, password: string) {
    username == AdminUsername && password == AdminPassword
  }

  class AdminLoginPage {
    const app: Shell
    var username: string
    var password: string
    var error: string
    var redirect: Option<string>

    constructor (app: Shell)
      ensures this.app == app
      ensures username == "" && password == "" && error == "" && redirect == None
    {
      this.app := app;
      username, password, error := "", "", "";
      redirect := None;
    }

    /** Mount effect: a stored flag forces the admin state on and moves on to
        the add-service page; otherwise nothing happens. */
    method Mount()
      requires app.store.Valid()
      modifies this, app
      ensures AdminFlag(app.store.entries) ==> app.isLoggedIn && redirect == Some(AddServiceRoute)
      ensures !AdminFlag(app.store.entries) ==> app.isLoggedIn == old(app.isLoggedIn) && redirect == old(redirect)
      ensures app.currentUser == old(app.currentUser) && app.isDarkMode == old(app.isDarkMode)
      ensures app.redirect == old(app.redirect)
      ensures username == old(username) && password == old(password) && error == old(error)
    {
      if app.store.Get(LoggedInKey) == Some(Text("true")) {
        app.SetLoggedIn(true);
        redirect := Some(AddServiceRoute);
      }
    }

    /** `handleLogin`: the fixed pair logs the admin in and records the flag;
        anything else only sets the error message. */
    method HandleLogin()
      requires app.store.Valid()
      modifies this, app, app.store
      ensures app.store.Valid()
      ensures IsAdminCredentials(username, password) ==>
                app.store.entries == old(app.store.entries)[LoggedInKey := Text("true")] &&
                app.isLoggedIn && redirect == Some(AddServiceRoute) && error == old(error)
      ensures !IsAdminCredentials(username, password) ==>
                app.store.entries == old(app.store.entries) && app.isLoggedIn == old(app.isLoggedIn) &&
                redirect == old(redirect) && error == InvalidAdmin
      ensures app.currentUser == old(app.currentUser) && app.isDarkMode == old(app.isDarkMode)
      ensures app.redirect == old(app.redirect)
      ensures username == old(username) && password == old(password)
    {
      if IsAdminCredentials(username, password) {
        app.store.Set(LoggedInKey, Text("true"));
        app.SetLoggedIn(true);
        redirect := Some(AddServiceRoute);
      } else {
        error := InvalidAdmin;
      }
    }
  }

  /** A login attempt followed by a reload: the reloaded shell is the admin
      exactly when the attempt used the fixed pair or the admin was already
      logged in. */
  method LoginThenReload(page: AdminLoginPage, prefersDark: bool) returns (reloaded: Shell)
    requires page.app.store.Valid()
    modifies page, page.app, page.app.store
    ensures reloaded.isLoggedIn <==>
              IsAdminCredentials(page.username, page.password) || old(AdminFlag(page.app.store.entries))
  {
    page.HandleLogin();
    reloaded := new Shell(page.app.store, prefersDark);
  }

  /** An admin logout followed by a reload: the reloaded shell is not the admin. */
  method LogoutThenReload(shell: Shell, prefersDark: bool) returns (reloaded: Shell)
    requires shell.store.Valid()
    modifies shell, shell.store
    ensures !reloaded.isLoggedIn
  {
    shell.HandleLogout();
    reloaded := new Shell(shell.store, prefersDark);
  }
}
