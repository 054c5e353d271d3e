/** The application shell: the theme and the two identities (the admin flag
    and the citizen record) restored from storage, kept in step with other
    tabs through the storage event, the two logouts, the navigation links
    and which header controls appear.
 */
module App {
  import opened Base
  import opened Entities
  import opened Storage


  // ---------------------------------------------------------------------
  // Theme
  // ---------------------------------------------------------------------

  function ThemeName(dark: bool): (name: string)
    ensures name == "dark" <==> dark
    ensures name != ""
  {
    if dark then "dark" else "light"
  }

  /** Initial theme: a stored theme decides (dark iff it is "dark"); with no
      stored theme, the system preference does. */
  function InitialDarkMode(entries: map<string, Value>, prefersDark: bool): (dark: bool)
    requires WellFormed(entries)
    ensures ThemeKey !in entries || entries[ThemeKey] == Text("") ==> dark == prefersDark
    ensures ThemeKey in entries && entries[ThemeKey] != Text("") ==>
              (dark <==> entries[ThemeKey] == Text("dark"))
  {
    var stored := StoredTheme(entries);
    if Truthy(stored) then stored == "dark" else prefersDark
  }

  /** The theme effect writes what the initialiser reads back. */
  lemma ThemeRoundTrip(entries: map<string, Value>, dark: bool, prefersDark: bool)
    requires WellFormed(entries)
    ensures WellFormed(entries[ThemeKey := Text(ThemeName(dark))])
    ensures InitialDarkMode(entries[ThemeKey := Text(ThemeName(dark))], prefersDark) == dark
  {
  }

  // ---------------------------------------------------------------------
  // Navigation and header
  // ---------------------------------------------------------------------

  datatype NavLink = NavLink(to: string, caption: string, end: bool)

  const BaseNavLinks: seq<NavLink> := [
    NavLink("/", "Home", true),
    NavLink("/services", "Services", false),
    NavLink("/contact", "Contact", false),
    NavLink("/complaints", "Complaints", false)
  ]

  const AddServiceLink := NavLink("/add-service", "Add Service", false)
  const AdminUsersLink := NavLink("/admin/users", "Admin Users", false)

  /** `navLinks`: a copy of the base links, into which the two admin links
      are spliced when the admin is logged in. */
  method NavLinks(isLoggedIn: bool) returns (links: seq<NavLink>)
    ensures !isLoggedIn ==> links == BaseNavLinks
    ensures isLoggedIn ==> |links| == 6 &&
                           links[..2] == BaseNavLinks[..2] &&
                           links[2] == AddServiceLink && links[3] == AdminUsersLink &&
                           links[4..] == BaseNavLinks[2..]
  {
    links := BaseNavLinks;
    if isLoggedIn {
      links := links[..2] + [AddServiceLink] + links[2..];
      links := links[..3] + [AdminUsersLink] + links[3..];
    }
  }

  predicate ShowsLoginButtons(isLoggedIn: bool, currentUser: Option<User>) {
    !isLoggedIn && currentUser.None?
  }

  predicate ShowsAdminLogout(isLoggedIn: bool) {
    isLoggedIn
  }

  predicate ShowsUserChip(isLoggedIn: bool, currentUser: Option<User>) {
    currentUser.Some? && !isLoggedIn
  }

  /** The header shows exactly one kind of identity control: the login
      buttons when nobody is identified, the admin logout whenever the admin
      flag is set (even with a citizen present), the user chip otherwise. */
  lemma HeaderShowsOneControl(isLoggedIn: bool, currentUser: Option<User>)
    ensures ShowsLoginButtons(isLoggedIn, currentUser) ||
            ShowsAdminLogout(isLoggedIn) ||
            ShowsUserChip(isLoggedIn, currentUser)
    ensures !(ShowsLoginButtons(isLoggedIn, currentUser) && ShowsAdminLogout(isLoggedIn))
    ensures !(ShowsLoginButtons(isLoggedIn, currentUser) && ShowsUserChip(isLoggedIn, currentUser))
    ensures !(ShowsAdminLogout(isLoggedIn) && ShowsUserChip(isLoggedIn, currentUser))
  {
  }

  function UpperChar(c: char): (d: char)
    ensures 'a' <= c <= 'z' ==> d as int == c as int - 32
    ensures !('a' <= c <= 'z') ==> d == c
  {
    if 'a' <= c <= 'z' then (c as int - 32) as char else c
  }

  /** `currentUser.name?.charAt(0)?.toUpperCase() || "U"`. */
  function AvatarInitial(name: string): (initial: string)
    ensures |initial| == 1
    ensures name == "" ==> initial == "U"
    ensures name != "" ==> initial == [UpperChar(name[0])]
  {
    OrElse(if name == "" then "" else [UpperChar(name[0])], "U")
  }

  // ---------------------------------------------------------------------
  // The shell
  // ---------------------------------------------------------------------

  class Shell {
    const store: Store
    var isDarkMode: bool
    var isLoggedIn: bool
    var currentUser: Option<User>
    var redirect: Option<string>

    /** The state initialisers: all three values are read from the store. */
    constructor (store: Store, prefersDark: bool)
      requires store.Valid()
      ensures this.store == store
      ensures isDarkMode == InitialDarkMode(store.entries, prefersDark)
      ensures isLoggedIn == AdminFlag(store.entries)
      ensures currentUser == StoredUser(store.entries)
      ensures redirect == None
    {
      this.store := store;
      isDarkMode := InitialDarkMode(store.entries, prefersDark);
      isLoggedIn := store.Get(LoggedInKey) == Some(Text("true"));
      var stored := store.Get(CurrentUserKey);
      currentUser := if stored.Some? then Some(stored.value.user) else None;
      redirect := None;
    }

    /** Effect on every theme change. */
    method PersistTheme()
      requires store.Valid()
      modifies store
      ensures store.Valid()
      ensures store.entries == old(store.entries)[ThemeKey := Text(ThemeName(isDarkMode))]
    {
      store.Set(ThemeKey, Text(if isDarkMode then "dark" else "light"));
    }

    /** Effect on every change of the citizen: write the record, or remove it. */
    method PersistCurrentUser()
      requires store.Valid()
      modifies store
      ensures store.Valid()
      ensures StoredUser(store.entries) == currentUser
      ensures store.entries == if currentUser.Some? then old(store.entries)[CurrentUserKey := UserRecord(currentUser.value)]
                               else old(store.entries) - {CurrentUserKey}
    {
      match currentUser {
        case Some(u) => store.Set(CurrentUserKey, UserRecord(u));
        case None => store.Remove(CurrentUserKey);
      }
    }

    /** `setCurrentUser` as the pages call it, followed by the persist effect
        it triggers. */
    method SetCurrentUser(u: Option<User>)
      requires store.Valid()
      modifies this, store
      ensures store.Valid()
      ensures currentUser == u && StoredUser(store.entries) == u
      ensures store.entries == if u.Some? then old(store.entries)[CurrentUserKey := UserRecord(u.value)]
                               else old(store.entries) - {CurrentUserKey}
      ensures isLoggedIn == old(isLoggedIn) && isDarkMode == old(isDarkMode) && redirect == old(redirect)
    {
      currentUser := u;
      PersistCurrentUser();
    }

    /** `setIsLoggedIn` as the admin login page calls it. */
    method SetLoggedIn(b: bool)
      modifies this
      ensures isLoggedIn == b
      ensures currentUser == old(currentUser) && isDarkMode == old(isDarkMode) && redirect == old(redirect)
    {
      isLoggedIn := b;
    }

    /** `handleStorage`: another tab changed the store; the admin flag and the
        citizen are re-read from it, and so is the theme when one is stored. */
    method HandleStorage()
      requires store.Valid()
      modifies this
      ensures isLoggedIn == AdminFlag(store.entries)
      ensures currentUser == StoredUser(store.entries)
      ensures isDarkMode == if Truthy(StoredTheme(store.entries)) then StoredTheme(store.entries) == "dark"
                            else old(isDarkMode)
      ensures redirect == old(redirect)
    {
      isLoggedIn := store.Get(LoggedInKey) == Some(Text("true"));
      var theme := store.Get(ThemeKey);
      if theme.Some? && Truthy(theme.value.text) {
        isDarkMode := theme.value.text == "dark";
      }
      var stored := store.Get(CurrentUserKey);
      currentUser := if stored.Some? then Some(stored.value.user) else None;
    }

    method ToggleTheme()
      modifies this
      ensures isDarkMode == !old(isDarkMode)
      ensures isLoggedIn == old(isLoggedIn) && currentUser == old(currentUser) && redirect == old(redirect)
    {
      isDarkMode := !isDarkMode;
    }

    /** Admin logout: the stored flag goes, the citizen is untouched. */
    method HandleLogout()
      requires store.Valid()
      modifies this, store
      ensures store.Valid()
      ensures store.entries == old(store.entries) - {LoggedInKey}
      ensures !AdminFlag(store.entries)
      ensures !isLoggedIn && redirect == Some(LoginRoute)
      ensures currentUser == old(currentUser) && isDarkMode == old(isDarkMode)
    {
      store.Remove(LoggedInKey);
      isLoggedIn := false;
      redirect := Some(LoginRoute);
    }

    /** Citizen logout: the record goes, the admin flag is untouched. */
    method HandleUserLogout()
      requires store.Valid()
      modifies this, store
      ensures store.Valid()
      ensures store.entries == old(store.entries) - {CurrentUserKey}
      ensures StoredUser(store.entries) == None
      ensures currentUser == None
      ensures isLoggedIn == old(isLoggedIn) && isDarkMode == old(isDarkMode) && redirect == old(redirect)
    {
      currentUser := None;
      store.Remove(CurrentUserKey);
    }
  }

  /** Toggling the theme twice restores it. */
  method ToggleTwice(shell: Shell)
    modifies shell
    ensures shell.isDarkMode == old(shell.isDarkMode)
  {
    shell.ToggleTheme();
    shell.ToggleTheme();
  }

  /** A second tab that receives the storage event after the admin logged in
      elsewhere sees the admin as logged in, whatever it believed before. */
  method OtherTabSeesAdminLogin(shell: Shell)
    requires shell.store.Valid()
    modifies shell, shell.store
    ensures shell.isLoggedIn
  {
    shell.store.Set(LoggedInKey, Text("true"));
    shell.HandleStorage();
  }
}
