# CitizenConnect — a Dafny model of the page logic

CitizenConnect is a single-page civic portal written in React. Citizens can:

- browse a directory of city services, filtered by search text, category and status;
- file complaints against a service;
- open support tickets;
- sign up and log in with a citizen account.

An administrator logs in with a fixed credential pair. The admin can add services, see how many complaints each citizen raised, search the complaints and delete them.

There is no library layer: the logic lives in the page components. This project lifts that logic out of the JSX and models it.

- The browser's `localStorage` becomes a `Store` object holding a map from key to decoded value.
- Each page becomes a class whose fields are the component's state.
- A page that reads the router's outlet context holds the `Shell` and reads its fields when a method runs, so a change made in the header is seen by the page's next effect.
- Each event handler and effect becomes a method that states the page's new state and the store's new contents.
- Pure computations become functions. These are the directory filter, the icon and image fallbacks, the complaint search, the id assignment, and the credential lookup.
- The two `reduce` calls that update an accumulator step by step become methods with loops: `ServiceNames.ServiceLookup` builds the id→name lookup and `AdminUsers.ComplaintsByUser` builds the per-user complaint tally. Each is proved against a specification function (`LookupOf`, `CountFor`).

Each operation is paired with lemmas that state what the page promises about it.

The modules are:

| file | module | models |
|---|---|---|
| base.dfy | `Base` | `Option`, network outcomes `Response = Ok(payload) \| NotOk \| Threw`, JS string truthiness and `\|\|`, ASCII lower-casing, `String.includes`, `filter`/`find`/`some` with their laws |
| entities.dfy | `Entities` | service, user, complaint and ticket records; the decimal text a numeric id becomes when used as an object key |
| storage.dfy | `Storage` | the typed store, its keys and its readers |
| service.dfy | `ServiceDirectory` | the services page |
| service_names.dfy | `ServiceNames` | the service id→name lookup used by the admin and complaints pages |
| admin_users.dfy | `AdminUsers` | the admin users page |
| add_service.dfy | `AddService` | the add-service page |
| complaints.dfy | `Complaints` | the complaints page |
| user_login.dfy | `UserLogin` | the citizen login/sign-up page |
| login.dfy | `AdminLogin` | the admin login page |
| app.dfy | `App` | the application shell: theme, the two identities, storage event, navigation, header |
| contact.dfy | `Contact` | the contact page |

Inputs from outside the program are parameters:

- the result of each `fetch`: `Response` for a request, `Option` for a load where `None` means the request threw;
- the ids from `crypto.randomUUID`;
- the timestamps from `new Date()`;
- the answer to `window.confirm`;
- the system colour-scheme preference;
- the seed list of default services.

`navigate(...)` is recorded as a `redirect` field holding the target route.

## Model

| member | source | states |
|---|---|---|
| Base.FilterIsSubsequence | src/pages/service/Service.jsx:66 | `filter` keeps elements in order and invents none (the result is a subsequence) |
| Base.FilterMembership | src/pages/admin/AdminUsers.jsx:151-158 | an element is in `filter(p)`'s result iff it is in the input and satisfies `p` |
| Base.FilterIdempotent | src/pages/service/Service.jsx:65-77 | filtering a filtered list with the same predicate changes nothing |
| Base.FilterKeepsAll | src/pages/service/Service.jsx:66 | a predicate every element satisfies keeps the whole list |
| Base.FilterSplitsLength | src/pages/admin/AdminUsers.jsx:22 | filtering by `p` and by its negation splits the length of the list |
| Base.FindFirst | src/pages/user/UserLogin.jsx:53-55 | `find` returns a satisfying element iff one exists, and it is the first one |
| Base.Lower | src/pages/service/Service.jsx:68-70 | lower-casing keeps the length and maps each character on its own |
| Base.LowerIdempotent | src/pages/service/Service.jsx:68 | lower-casing twice equals lower-casing once |
| Base.IncludesEmpty | src/pages/service/Service.jsx:68 | every string includes the empty string |
| Base.OrElse | src/pages/service/Service.jsx:32 | `a \|\| b` on strings is `a` when non-empty, else `b` |
| Entities.Digits | src/pages/admin/AdminUsers.jsx:87 | the decimal text of a number is non-empty and all digits, starts with `0` only when it is `"0"`, and reads back as that number |
| Entities.PropertyKey | src/pages/admin/AdminUsers.jsx:87 | the object key of an id is its decimal text with no leading zero (`"0"` for 0, a leading `-` for a negative id), which reads back as the id |
| Entities.PropertyKeyInjective | src/pages/admin/AdminUsers.jsx:87 | distinct numeric ids become distinct object keys |
| Storage.AdminFlagAfterWrite | src/pages/login/Login.jsx:22 | the admin flag is set after a write iff that write put `"true"` under its key, or left its key alone with the flag already set; removing its key clears it |
| Storage.StoredTheme | src/App.jsx:16 | an absent theme reads as the empty string; a stored one reads as itself |
| Storage.StoredServices | src/pages/service/Service.jsx:50 | the stored service list is present iff its key is stored, and is the stored list |
| Storage.StoredUser | src/App.jsx:24-27 | the restored citizen is present iff the key is stored, and is the stored record |
| Storage.StoredUsers | src/pages/user/UserLogin.jsx:27 | an absent `users` key reads as the empty list |
| Storage.StoredTickets | src/pages/contact/Contact.jsx:67 | an absent `supportTickets` key reads as the empty list |
| Storage.Store.Set | src/pages/addservice/AddService.jsx:73 | a write replaces exactly that key and is seen by the next read |
| Storage.Store.Remove | src/App.jsx:70 | a removal deletes exactly that key |
| ServiceDirectory.ServiceIcon | src/pages/service/Service.jsx:31-33 | the icon is never empty; it is the mapped icon for the five known categories and `"building"` iff the category is unknown |
| ServiceDirectory.ServiceImage | src/pages/service/Service.jsx:35-41 | the image is never empty and falls back from the service's own image, to its category's image, to the generic image |
| ServiceDirectory.FilterServices | src/pages/service/Service.jsx:65-77 | the shown list is a subsequence of the services, holds a service iff it matches search AND category AND status, and holds each matching service as many times as the list does |
| ServiceDirectory.FilterServicesShowsAll | src/pages/service/Service.jsx:67-73 | an empty search with both filters on `"all"` shows every service, in order |
| ServiceDirectory.FilterServicesExact | src/pages/service/Service.jsx:72-73 | a category (status) filter other than `"all"` shows only services with exactly that category (status) |
| ServiceDirectory.FilterServicesIdempotent | src/pages/service/Service.jsx:65-77 | filtering the shown list again with the same inputs shows the same list |
| ServiceDirectory.UtilitiesScenario | src/pages/service/Service.jsx:72 | filtering a hospital and the water works on `"utilities"` shows only the water works, id 4 |
| ServiceDirectory.ServicesPage.constructor | src/pages/service/Service.jsx:44-47 | the page starts with no services, an empty search and both filters on `"all"` |
| ServiceDirectory.ServicesPage.Shown | src/pages/service/Service.jsx:65-77 | the grid shows a subsequence of the page's services, holding a service iff it matches the page's search, category and status |
| ServiceDirectory.ServicesPage.Load | src/pages/service/Service.jsx:49-57 | a saved non-empty list is used unchanged; otherwise the defaults are written to the store and used |
| ServiceDirectory.ServicesPage.Persist | src/pages/service/Service.jsx:59-63 | a non-empty list is written back; an empty one leaves the store as it was |
| ServiceDirectory.ServicesPage.SetFilters | src/pages/service/Service.jsx:44-47 | setting the filters leaves the list alone |
| ServiceNames.ServiceLookup | src/pages/admin/AdminUsers.jsx:85-90 | the in-place `reduce` builds exactly the lookup of the list (its loop invariant: the lookup of the prefix seen so far) |
| ServiceNames.LookupKeys | src/pages/admin/AdminUsers.jsx:85-90 | the lookup has a key iff some service has that id |
| ServiceNames.LookupLastWins | src/pages/admin/AdminUsers.jsx:87 | under a key sits the name of the last service with that id |
| ServiceNames.LookupFindsEachService | src/pages/admin/AdminUsers.jsx:85-90 | with distinct ids, each service's name is found under its own id |
| ServiceNames.ServiceLabel | src/pages/admin/AdminUsers.jsx:161 | the label is never empty; a known id with a non-empty name shows that name, and an unknown id or an empty name shows `"Unknown service"` |
| ServiceNames.LabelOfPickedService | src/pages/complaints/Complaints.jsx:230 | a complaint filed through the service picker is labelled with that service's name |
| ServiceNames.LabelOfUnknownService | src/pages/complaints/Complaints.jsx:230 | an id matching no service is labelled `"Unknown service"` |
| AdminUsers.SumValuesRemove | src/pages/admin/AdminUsers.jsx:77-83 | the sum of the counts is one count plus the sum of the others |
| AdminUsers.TallyStepCounts | src/pages/admin/AdminUsers.jsx:79-80 | one `reduce` step keeps the counts exact for the complaints seen so far |
| AdminUsers.TallyStepSum | src/pages/admin/AdminUsers.jsx:79-80 | one `reduce` step keeps counts plus guests equal to the complaints seen so far |
| AdminUsers.ComplaintsByUser | src/pages/admin/AdminUsers.jsx:77-83 | each id's count is the number of complaints with that `userId`; ids without complaints have no entry; the counts plus the guest complaints add up to `complaints.length` |
| AdminUsers.DisplayedCount | src/pages/admin/AdminUsers.jsx:120 | a user row shows the tally's entry for the user, and 0 for a user with no entry |
| AdminUsers.DisplayedCountIsCount | src/pages/admin/AdminUsers.jsx:120 | the displayed count is the user's number of complaints, 0 for a user with none |
| AdminUsers.CountIsComplaintsWithId | src/pages/admin/AdminUsers.jsx:79-80 | a user's count is the number of complaints carrying that id |
| AdminUsers.GuestCountsForNoUser | src/pages/admin/AdminUsers.jsx:79 | a complaint with a falsy `userId` counts toward no user |
| AdminUsers.FindUser | src/pages/admin/AdminUsers.jsx:163 | the user found is the first one whose id is the complaint's `userId`; none is found iff no user has it |
| AdminUsers.SubmitterName | src/pages/admin/AdminUsers.jsx:163 | the submitter is never empty: the user's name, else the complaint's name, else `"Guest"` |
| AdminUsers.SearchComplaints | src/pages/admin/AdminUsers.jsx:151-158 | the rows shown are a subsequence of the complaints, hold a complaint iff the lowered term is in its service name, submitter name or description, and hold each matching complaint as many times as the list does |
| AdminUsers.SearchEmptyKeepsAll | src/pages/admin/AdminUsers.jsx:151-158 | the empty search term keeps every complaint |
| AdminUsers.WithoutComplaint | src/pages/admin/AdminUsers.jsx:22 | exactly the complaints with that id go: the rest is a subsequence, holds each other complaint, and is shorter by the number of complaints with that id |
| AdminUsers.AdminUsersPage.constructor | src/pages/admin/AdminUsers.jsx:6-10 | the page reads the admin flag live from the shell and starts with empty lists and an empty search |
| AdminUsers.AdminUsersPage.CheckAccess | src/pages/admin/AdminUsers.jsx:32-36 | whenever it runs, a visitor whom the shell's current flag does not mark as the admin is sent to `/login`; nothing else changes |
| AdminUsers.AdminUsersPage.Load | src/pages/admin/AdminUsers.jsx:38-60 | users come from the store; complaints, then services, from the server; a request that throws stops the sequence |
| AdminUsers.AdminUsersPage.HandleDelete | src/pages/admin/AdminUsers.jsx:13-30 | nothing is sent without confirmation; the list loses that id's complaints only on an ok response, and is unchanged on a non-ok response or a thrown request |
| AdminUsers.AdminUsersPage.Shown | src/pages/admin/AdminUsers.jsx:151-158 | the table shows a subsequence of the complaints, holding a complaint iff it matches the search over the page's own service lookup and users |
| AddService.MaxId | src/pages/addservice/AddService.jsx:60 | the maximum is at least every id, and is one of the ids |
| AddService.NextServiceId | src/pages/addservice/AddService.jsx:60 | the new id is 1 for an empty list, else some existing id plus one, and always greater than every existing id |
| AddService.NewService | src/pages/addservice/AddService.jsx:59-69 | the new service carries the form's fields and the fresh id; empty hours become `"Contact for hours"`; the rating is 0 |
| AddService.AddKeepsIdsDistinct | src/pages/addservice/AddService.jsx:60-71 | distinct ids stay distinct after an add |
| AddService.RepeatedAddsKeepIdsDistinct | src/pages/addservice/AddService.jsx:60-71 | distinct ids stay distinct after any number of adds |
| AddService.AddAll | src/pages/addservice/AddService.jsx:71 | successive adds grow the list by one each and never change the prefix |
| AddService.AddedServiceIsListed | src/pages/addservice/AddService.jsx:71-73 | a service just added is shown by the services page under its default filters |
| AddService.AddServicePage.constructor | src/pages/addservice/AddService.jsx:6-17 | the page starts logged out, with no services, the empty form (status `"operational"`) and no success flag |
| AddService.AddServicePage.Load | src/pages/addservice/AddService.jsx:21-32 | the page reads the admin flag and the stored services (none reads as empty), and sends a visitor without the flag to `/login` |
| AddService.AddServicePage.ClearForm | src/pages/addservice/AddService.jsx:40-50 | the form becomes all empty strings except status `"operational"` |
| AddService.AddServicePage.HandleAddService | src/pages/addservice/AddService.jsx:53-80 | an incomplete form changes nothing; otherwise exactly the new service is appended, the store holds the new list, success is set, the form is cleared, and distinct ids stay distinct |
| Complaints.OwnerId | src/pages/complaints/Complaints.jsx:86 | the owner id is the citizen's id when a citizen with a non-empty id is signed in, and null otherwise |
| Complaints.BuildComplaint | src/pages/complaints/Complaints.jsx:81-87 | the record carries the form's fields, the fresh id and timestamp, status `"open"` and the owner id |
| Complaints.ResetForm | src/pages/complaints/Complaints.jsx:101-107 | the reset form has empty service and description, priority `"medium"`, and the citizen's name and e-mail (or empty) |
| Complaints.Prefilled | src/pages/complaints/Complaints.jsx:50-58 | with a citizen, name and contact become their name and e-mail; nothing else changes |
| Complaints.ResetIsPrefilledInitialForm | src/pages/complaints/Complaints.jsx:101-107 | the form after a successful submit is the initial form with the prefill applied |
| Complaints.ListedName | src/pages/complaints/Complaints.jsx:237 | a row shows the user's name, else the complaint's own name, with no `"Guest"` fallback |
| Complaints.ListedNameAgreesWithAdmin | src/pages/complaints/Complaints.jsx:237 | the complaints page and the admin page show the same submitter, except that the admin page shows `"Guest"` where this page shows nothing |
| Complaints.FiledComplaintCounts | src/pages/complaints/Complaints.jsx:86-100 | a complaint filed by a signed-in citizen raises that citizen's admin count by one and no other id's |
| Complaints.GuestComplaintCountsForNobody | src/pages/complaints/Complaints.jsx:86-100 | a complaint filed without a citizen is a guest complaint and changes no user's count |
| Complaints.ComplaintsPage.constructor | src/pages/complaints/Complaints.jsx:14-24 | the page reads the citizen live from the shell and starts with empty lists, the empty form with priority `"medium"`, and the idle status |
| Complaints.ComplaintsPage.Load | src/pages/complaints/Complaints.jsx:26-48 | services, then complaints from the server, then users from the store; a request that throws stops the sequence |
| Complaints.ComplaintsPage.Prefill | src/pages/complaints/Complaints.jsx:50-58 | the shell's current citizen's name and e-mail fill the form; with no citizen the form is kept as it is |
| Complaints.SubmitAfterLogout | src/pages/complaints/Complaints.jsx:50-87 | a citizen who logs out while the page is open leaves their name and e-mail in the form, so the next complete submit posts a guest complaint (no `userId`) under their name |
| Complaints.ComplaintsPage.HandleSubmit | src/pages/complaints/Complaints.jsx:74-116 | an incomplete form sets the error status and sends nothing; an ok response prepends the saved complaint and resets the form; any other outcome sets the error status and keeps the list and the form |
| Complaints.ComplaintsPage.RowLabel | src/pages/complaints/Complaints.jsx:230 | a row's service label is never empty; it is the looked-up name when that name is non-empty, and `"Unknown service"` for an empty name or an id matching no service |
| UserLogin.FindByCredentials | src/pages/user/UserLogin.jsx:53-55 | the account found matches both e-mail and password and is the first such; none is found iff none matches |
| UserLogin.SignupKeepsEmailsDistinct | src/pages/user/UserLogin.jsx:34-45 | a new account whose e-mail is not taken keeps the e-mails distinct |
| UserLogin.LoginFindsTheAccount | src/pages/user/UserLogin.jsx:53-55 | with distinct e-mails, an account's own e-mail and password find exactly that account |
| UserLogin.SignupThenLogin | src/pages/user/UserLogin.jsx:38-55 | an account just signed up can log in with the e-mail and password it signed up with |
| UserLogin.UserLoginPage.constructor | src/pages/user/UserLogin.jsx:8-11 | the page starts in login mode with the empty form and no error |
| UserLogin.UserLoginPage.Mount | src/pages/user/UserLogin.jsx:14-18 | a citizen who is already signed in is sent to `/` |
| UserLogin.UserLoginPage.ToggleMode | src/pages/user/UserLogin.jsx:132-136 | the mode flips between login and sign-up, and the form and the error are reset |
| UserLogin.UserLoginPage.HandleSubmit | src/pages/user/UserLogin.jsx:25-63 | sign-up with an empty field, or with a taken e-mail, sets its error and changes neither the store nor the citizen; otherwise it appends exactly one account and signs it in. Login signs in the first account matching both e-mail and password, or sets the invalid-credentials error and changes nothing. Distinct stored e-mails stay distinct |
| AdminLogin.AdminLoginPage.constructor | src/pages/login/Login.jsx:6-9 | the page starts with empty username, password and error |
| AdminLogin.AdminLoginPage.Mount | src/pages/login/Login.jsx:12-17 | a stored flag of `"true"` turns the admin state on and moves on to `/add-service` |
| AdminLogin.AdminLoginPage.HandleLogin | src/pages/login/Login.jsx:19-28 | the flag is stored and set iff the username is `"admin"` and the password `"admin123"`; otherwise only the error message is set |
| AdminLogin.LoginThenReload | src/pages/login/Login.jsx:21-23 | after a login attempt and a reload, the admin is logged in iff the attempt used the fixed pair or the admin already was |
| AdminLogin.LogoutThenReload | src/App.jsx:69-73 | after an admin logout and a reload, the admin is not logged in |
| App.ThemeName | src/App.jsx:32 | the stored name is `"dark"` iff the mode is dark |
| App.ThemeRoundTrip | src/App.jsx:15-33 | the theme the effect stores is the theme the initialiser restores |
| App.InitialDarkMode | src/App.jsx:15-21 | with no (or an empty) stored theme the system preference decides; with a stored theme the mode is dark iff it is `"dark"` |
| App.NavLinks | src/App.jsx:58-65 | logged out: the four base links; logged in: six links, with "Add Service" at index 2 and "Admin Users" at index 3 and the base links around them in order |
| App.HeaderShowsOneControl | src/App.jsx:117-149 | exactly one identity control shows: login buttons, admin logout, or the user chip |
| App.AvatarInitial | src/App.jsx:140 | the avatar is one character: the upper-cased first letter of the name, or `"U"` for an empty name |
| App.Shell.constructor | src/App.jsx:14-27 | the theme, the admin flag and the citizen are restored from the store |
| App.Shell.PersistTheme | src/App.jsx:30-33 | the current theme is written to the store |
| App.Shell.PersistCurrentUser | src/App.jsx:50-56 | the citizen's record is written, or removed when there is none |
| App.Shell.SetCurrentUser | src/App.jsx:50-56 | setting the citizen leaves the store holding exactly that citizen |
| App.Shell.SetLoggedIn | src/App.jsx:155 | the admin flag the shell hands to the pages is set, and nothing else in the shell changes |
| App.Shell.HandleStorage | src/App.jsx:35-44 | on a storage event the admin flag, the citizen and (when stored) the theme are re-read from the store alone |
| App.Shell.ToggleTheme | src/App.jsx:67 | the theme flips and nothing else changes |
| App.Shell.HandleLogout | src/App.jsx:69-73 | admin logout removes the stored flag, clears it, goes to `/login`, and leaves the citizen alone |
| App.Shell.HandleUserLogout | src/App.jsx:75-78 | citizen logout removes the citizen and their stored record, and leaves the admin flag alone |
| App.ToggleTwice | src/App.jsx:67 | toggling the theme twice restores it |
| App.OtherTabSeesAdminLogin | src/App.jsx:35-37 | a tab that receives the storage event after an admin login elsewhere sees the admin as logged in |
| Contact.TicketOf | src/pages/contact/Contact.jsx:61-65 | the ticket carries the submitted name, e-mail, topic and message with its fresh id and timestamp |
| Contact.ContactPage.constructor | src/pages/contact/Contact.jsx:41-47 | the page starts with the empty form (topic `"general"`) and the idle status |
| Contact.ContactPage.HandleSubmit | src/pages/contact/Contact.jsx:54-72 | an incomplete form sets the error status and leaves the store alone; otherwise the stored tickets gain exactly this ticket at the end, the status is success, and the form resets with topic `"general"` |
| Contact.SubmitTwice | src/pages/contact/Contact.jsx:67-69 | two successful submissions leave both tickets, in order, after the earlier ones |

## Left out

- Network: each `fetch` is replaced by its outcome, passed in as a parameter. There are no retries in the source.
- JSON encoding and parse errors: the store holds decoded values of the shape each page writes. Malformed stored text is not modelled. The reads at src/App.jsx:26, src/App.jsx:43, src/pages/addservice/AddService.jsx:25, src/pages/service/Service.jsx:50, src/pages/user/UserLogin.jsx:27 and src/pages/contact/Contact.jsx:67 have no `try`, so such text would throw there; the model does not claim it is handled.
- A server response body that is not a list: the admin and complaints pages store whatever `.json()` returns, even for a non-ok response. The model takes the body as a list.
- Rendering, CSS and the `data-theme` attribute are left out. So are `alert`, `setTimeout` (hiding the success banner), `scrollTo`, and `console.error`.
- `handleChange` on every form: the model's page fields are set directly by the caller.
- Base.Lower and App.AvatarInitial: they lower- and upper-case ASCII letters only. JavaScript's `toLowerCase`/`toUpperCase` follow Unicode case mapping.
- Cross-tab timing and the coalescing of storage events are not modelled. A storage event is an explicit call to `HandleStorage`.
- React scheduling is not modelled: effects run when the model calls them. The hook-order problem at src/pages/admin/AdminUsers.jsx:62-83 (a `useMemo` after an early return) is a framework concern and is not modelled.
- src/main.jsx (a routing table) and src/pages/homepage/Homepage.jsx (static content) are not part of this model.
- src/data/defaultServices.js is not part of this model. The seed list is the `defaults` parameter of the services page.
- JavaScript object keys such as `__proto__` that behave specially when used as property names are not modelled. Lookups are plain maps.
- The search in src/pages/admin/AdminUsers.jsx:156 guards `description?.` against a missing description. A description is always a string here.
- The navigation link `end` flag is absent (undefined) for every link except Home. It is modelled as `false`.
- AddService.NextServiceId: ids are exact integers. JavaScript numbers are doubles, exact only below 2^53; above that, the largest id plus one can round back to an existing id. The model covers the exact range only.
- AddService.AddKeepsIdsDistinct, AddService.RepeatedAddsKeepIdsDistinct and AddService.AddServicePage.HandleAddService: their distinct-ids promise rests on that exact arithmetic and does not hold for ids at or above 2^53.
- Entities.PropertyKey: the key is the plain decimal text of the id. JavaScript writes a number of 1e21 or more in exponent form (`"1e+21"`), and a non-integer id with a fraction; neither form is modelled.
