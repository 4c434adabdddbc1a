# MecaLink admin dashboard — a Dafny model

MecaLink's administration dashboard is a React single-page application. Its
screens cover:

- signing in;
- a protected layout with a sidebar;
- users (clients and garages) with a comment carousel;
- pre-start checklists, paginated and translated into French;
- breakdown-service requests;
- advertisements;
- push notifications;
- the administrator's profile;
- a home page of figures;
- period statistics.

A screen keeps its state in React hooks and changes it in event handlers, each around one awaited REST call.

This project models each screen's handlers and the rules they apply. Each handler is a method that takes its call's result as a parameter: an `Outcome` is `Success(value)` or `Failure(error)`. The rules are:

- the session kept in secure storage;
- routing by role and by token;
- list updates by `_id`;
- the carousel and page arithmetic;
- the translation and colour classification of checklists;
- the choice of endpoint and payload;
- the `||` fallbacks of the views modelled: the login error, the dashboard home cards and panels, the checklist details, the service-request list and details, and the error messages of every handler.

JavaScript's `||` on values that may be missing is written out. `Truthy`, `Or` and `OrElse` in `Remote` follow JavaScript: `undefined`, `null` and `""` are falsy.

Modules, one per source file plus three shared ones:

- `Remote`: options, outcomes and the `||` helpers.
- `Browser`:
  - the secure storage, as a class over a key→value map;
  - the router, as a class holding the current path.
- `Lists`: filter by id and replace by id, with their algebra.
- One module per screen:
  - `Connexion`, `Nav` and `Dashboard` (the layout);
  - `Utilisateurs`, `Fiches`, `Avertissements` and `Notifications`;
  - `Profil`, `Depannages`, `DashboardAccueil` and `Statistiques`.

  Every screen with state is a class whose methods are its handlers; its fields are the `useState` variables the handlers read or write (for the advertisements screen, also the values held by its antd form instance). `DashboardAccueil` keeps a single record and is modelled with functions.

## Model

| member | source | states |
|---|---|---|
| Lists.RemoveById | src/components/Dashboard/Avertissements.jsx:121 | No entity left has the deleted id, and the list never grows |
| Lists.RemoveByIdCounts | src/components/Dashboard/Avertissements.jsx:121 | Entities with the id disappear, and every other entity keeps its number of occurrences |
| Lists.RemoveByIdAppend | src/components/Dashboard/Utilisateurs.jsx:122 | Filtering distributes over concatenation, so survivors keep their relative order |
| Lists.RemoveByIdAbsent | src/components/Dashboard/Utilisateurs.jsx:125 | Deleting an id that no entity has leaves the list unchanged |
| Lists.RemoveByIdIdempotent | src/components/Dashboard/Avertissements.jsx:121 | A second delete of the same id changes nothing |
| Lists.ReplaceById | src/components/Dashboard/Avertissements.jsx:140-142 | Same length; each position holding the id gets the new object and every other position is kept |
| Lists.ReplaceByIdAbsent | src/components/Dashboard/Avertissements.jsx:140-142 | Replacing an id that no entity has changes nothing |
| Lists.ReplaceByIdIdempotent | src/components/Dashboard/Avertissements.jsx:140-142 | Repeating an edit whose reply keeps the id changes nothing |
| Lists.ReplaceThenRemove | src/components/Dashboard/Avertissements.jsx:140-142 | Deleting an id after an edit that keeps it equals deleting it without the edit |
| Connexion.ApplyChange | src/components/Connexion.jsx:17-23 | The named field gets `checked` for a checkbox and `value` otherwise, and the other fields are unchanged |
| Connexion.LoginRequest | src/components/Connexion.jsx:31-34 | The login body has exactly the keys email and password, copied from the form |
| Connexion.RedirectFor | src/components/Connexion.jsx:42-46 | Goes to /dashboard iff the role is admin, and to / otherwise |
| Connexion.StoreSession | src/components/Connexion.jsx:38-39 | Specified by `StoreSessionContents`: the token slot, then the user slot, are set from the reply |
| Connexion.StoreSessionContents | src/components/Connexion.jsx:36-40 | After login, storage holds the reply's token and user, other slots are unchanged, and the token guard passes iff the token is non-empty |
| Connexion.LoginPage.constructor | src/components/Connexion.jsx:9-14 | Empty form, no error, not loading |
| Connexion.LoginPage.HandleChange | src/components/Connexion.jsx:17-23 | The form becomes `ApplyChange` of the old form |
| Connexion.LoginPage.HandleSubmit | src/components/Connexion.jsx:25-54 | On a reply with `success` set: stores the session and redirects by role. On a reply without it: nothing changes. On failure: the server `msg` or the fixed text, and nothing is stored. The error is cleared first and loading always ends |
| Nav.DashboardLinkTarget | src/components/Nav.jsx:38 | /dashboard iff a token is stored, otherwise /connexion |
| Nav.AuthControlFor | src/components/Nav.jsx:75-101 | The logout button iff a token is stored, otherwise the Connexion link |
| Nav.LogoutItems | src/components/Nav.jsx:12-13 | Specified by `LogoutSignsOut`: both the token and the user slot are removed |
| Nav.LogoutSignsOut | src/components/Nav.jsx:11-16 | After this logout there is no token and no user, every other slot is kept, and both controls point to login |
| Nav.NavBar.constructor | src/components/Nav.jsx:9 | The modal is hidden |
| Nav.NavBar.OpenLogoutModal | src/components/Nav.jsx:78 | Shows the modal |
| Nav.NavBar.CancelLogout | src/components/Nav.jsx:124 | Hides the modal; storage is outside its frame |
| Nav.NavBar.HandleLogout | src/components/Nav.jsx:11-16 | Removes token and user, navigates to /, hides the modal |
| Dashboard.IsActive | src/pages/Dashboard/Dashboard.jsx:24-26 | The active class iff the path matches exactly; the inactive class otherwise |
| Dashboard.AtMostOneActive | src/pages/Dashboard/Dashboard.jsx:24-26 | No two sidebar links are highlighted at once |
| Dashboard.GuardTarget | src/pages/Dashboard/Dashboard.jsx:17-22 | With a token the route is unchanged; without one it becomes /connexion |
| Dashboard.LogoutItems | src/pages/Dashboard/Dashboard.jsx:12 | Specified by `LogoutsDiffer`: only the token slot is removed, the user slot stays |
| Dashboard.LogoutsDiffer | src/pages/Dashboard/Dashboard.jsx:11-15 | This logout keeps the stored user while the navigation bar's removes it, both agree on every other slot, and afterwards the guard redirects either way |
| Dashboard.LoginPassesGuard | src/pages/Dashboard/Dashboard.jsx:17-22 | A login with a non-empty token passes the guard, and one with an empty token is sent back to login |
| Dashboard.DashboardLayout.constructor | src/pages/Dashboard/Dashboard.jsx:8 | The modal is hidden |
| Dashboard.DashboardLayout.OpenModal | src/pages/Dashboard/Dashboard.jsx:123 | Shows the modal |
| Dashboard.DashboardLayout.CancelModal | src/pages/Dashboard/Dashboard.jsx:159 | Hides the modal; storage is outside its frame |
| Dashboard.DashboardLayout.HandleLogout | src/pages/Dashboard/Dashboard.jsx:11-15 | Removes only the token and navigates to /connexion |
| Dashboard.DashboardLayout.GuardEffect | src/pages/Dashboard/Dashboard.jsx:17-22 | The router ends at `GuardTarget` of the storage |
| Utilisateurs.Scrolled | src/components/Dashboard/Utilisateurs.jsx:64-75 | With ≤ 1 comment nothing moves; from inside the bounds, the index stays inside and moves one cyclic step (back for 'prev', forward otherwise) |
| Utilisateurs.ScrollInverse | src/components/Dashboard/Utilisateurs.jsx:68-73 | prev after next, and next after prev, return to the start |
| Utilisateurs.ScrollOtherIsNext | src/components/Dashboard/Utilisateurs.jsx:69-73 | Every direction other than 'prev' acts as next |
| Utilisateurs.NextTimesCycles | src/components/Dashboard/Utilisateurs.jsx:71-72 | k ≤ count presses of next climb, wrap to the first comment and climb on; after count presses the carousel is back at the start |
| Utilisateurs.DeleteFromLists | src/components/Dashboard/Utilisateurs.jsx:118-126 | userType 'client' filters the clients and leaves the garages untouched; any other userType does the reverse |
| Utilisateurs.DeleteRemovesTarget | src/components/Dashboard/Utilisateurs.jsx:120-126 | The deleted id is gone from the list it was in, and the lists never grow |
| Utilisateurs.UserEndpoint | src/components/Dashboard/Utilisateurs.jsx:48-50 | Specified by `UserEndpointInjective`: the users collection for a client, the garages collection otherwise, and the endpoint determines both collection and id |
| Utilisateurs.IdText | src/components/Dashboard/Utilisateurs.jsx:121-124 | A present id is printed as itself; the closed modal's null id prints as "null" |
| Utilisateurs.UserEndpointInjective | src/components/Dashboard/Utilisateurs.jsx:47-49 | Equal endpoints name the same collection and the same id |
| Utilisateurs.UsersPage.constructor | src/components/Dashboard/Utilisateurs.jsx:5-21 | Initial state, with the modal closed and the index 0 |
| Utilisateurs.UsersPage.LoadUsers | src/components/Dashboard/Utilisateurs.jsx:23-40 | Clients first, then garages; a missing list becomes []; either failure sets the load error |
| Utilisateurs.UsersPage.FetchUserDetails | src/components/Dashboard/Utilisateurs.jsx:45-62 | Endpoint by user type. On success: details, selected user, index 0. On failure: the details error |
| Utilisateurs.UsersPage.ShowDetailsModal | src/components/Dashboard/Utilisateurs.jsx:85-94 | Opens the details modal for that user. On success: the details and the selected user are set and the carousel rewinds, with the error kept. On failure: the details error is set and details, selection and carousel are kept. detailsLoading ends false, and loading and the lists are unchanged |
| Utilisateurs.UsersPage.ShowDeleteModal | src/components/Dashboard/Utilisateurs.jsx:96-104 | Opens the delete modal for that user |
| Utilisateurs.UsersPage.CloseModal | src/components/Dashboard/Utilisateurs.jsx:106-116 | The modal is closed, the details cleared, the index 0 |
| Utilisateurs.UsersPage.ScrollComments | src/components/Dashboard/Utilisateurs.jsx:64-75 | The index becomes `Scrolled` of the old index and the comment count |
| Utilisateurs.UsersPage.SelectComment | src/components/Dashboard/Utilisateurs.jsx:390 | A dot jumps to its comment |
| Utilisateurs.UsersPage.ConfirmDelete | src/components/Dashboard/Utilisateurs.jsx:118-132 | Endpoint `UserEndpoint` by the modal's userType and its id, a null id printing as "null". On success: `DeleteFromLists`, and the modal closes. On failure: lists, modal and details are unchanged. Error, loading, selection and detailsLoading are never touched |
| Fiches.TranslateKey | src/components/Dashboard/Fiches.jsx:110 | A code in the key dictionary becomes its label, and any other key is kept |
| Fiches.TranslateValue | src/components/Dashboard/Fiches.jsx:111 | The value dictionary is the identity, so results come out unchanged |
| Fiches.Put | src/components/Dashboard/Fiches.jsx:112 | `{...acc, [k]: v}`: k maps to v and other keys are unchanged; an existing key keeps its position and a new key is appended; keys stay unique |
| Fiches.TranslateAll | src/components/Dashboard/Fiches.jsx:108-114 | Specified by `TranslateLookup` and `TranslateKeepsDistinctGroups`: the fold with the two dictionaries of the screen |
| Fiches.TranslateWith | src/components/Dashboard/Fiches.jsx:108-114 | The folded object has each key once and no more entries than the group |
| Fiches.Translate | src/components/Dashboard/Fiches.jsx:108-109 | A missing group gives an empty object |
| Fiches.LatestWins | src/components/Dashboard/Fiches.jsx:109-113 | Among entries that translate to the same key, the last one's value is kept |
| Fiches.AbsentKey | src/components/Dashboard/Fiches.jsx:109-113 | A key that no entry translates to is absent |
| Fiches.DistinctKeysKept | src/components/Dashboard/Fiches.jsx:109-113 | Entries with distinct translated keys are all kept |
| Fiches.TranslateLookup | src/components/Dashboard/Fiches.jsx:108-114 | With the two dictionaries: the latest entry for a label is what is shown under that label, unchanged, and a label no entry translates to is not shown |
| Fiches.KeyLabelsInjective | src/components/Dashboard/Fiches.jsx:28-49 | No two codes share a label |
| Fiches.TranslateKeepsDistinctGroups | src/components/Dashboard/Fiches.jsx:108-114 | A group of distinct codes, none of them spelled like a label, loses no check |
| Fiches.ExteriorColour | src/components/Dashboard/Fiches.jsx:357-361 | Green iff Bon, Oui or OK; yellow iff À revoir or Faible; red otherwise |
| Fiches.MechanicalColour | src/components/Dashboard/Fiches.jsx:374-377 | Green iff OK; yellow iff Faible; red otherwise |
| Fiches.InteriorColour | src/components/Dashboard/Fiches.jsx:392-394 | Green iff OK or Présent; yellow iff Incomplet or Incomplète; red otherwise |
| Fiches.MechanicalAgreesWithExterior | src/components/Dashboard/Fiches.jsx:357-377 | What the mechanical scale does not mark red, the exterior scale colours the same way; OK is green everywhere |
| Fiches.ColourOfTranslatedValue | src/components/Dashboard/Fiches.jsx:392-394 | Colours do not change under translation; the dictionary value "Incomplets" shows red in the interior |
| Fiches.FormatDetails | src/components/Dashboard/Fiches.jsx:118-130 | A missing user becomes 'Non renseigné' ×3; empty or missing observations become 'Aucune observation'; the groups are translated; other fields pass through |
| Fiches.ChangePage | src/components/Dashboard/Fiches.jsx:159-163 | The page changes iff 1 ≤ newPage ≤ pages; limit, total and pages never change |
| Fiches.ChangePageKeepsRange | src/components/Dashboard/Fiches.jsx:159-163 | A page inside [1, pages] stays inside |
| Fiches.ChangePageInverse | src/components/Dashboard/Fiches.jsx:159-163 | next then previous, and previous then next, restore the pagination |
| Fiches.ButtonsMatchGuard | src/components/Dashboard/Fiches.jsx:264-280 | A button's request is refused exactly when the button is disabled (page 1; the last page) |
| Fiches.ChecklistsPage.constructor | src/components/Dashboard/Fiches.jsx:6-20 | Initial state: page 1 of 1, limit 10, modal closed |
| Fiches.ChecklistsPage.FetchChecklists | src/components/Dashboard/Fiches.jsx:67-85 | Sends the current page and limit. On success: rows and pagination exactly the server's. On failure: `msg` or the exception's message after the prefix |
| Fiches.ChecklistsPage.FetchChecklistDetails | src/components/Dashboard/Fiches.jsx:103-138 | On success: `FormatDetails` of the reply. On failure: the details error |
| Fiches.ChecklistsPage.ShowDetailsModal | src/components/Dashboard/Fiches.jsx:140-147 | Opens the modal for that checklist. On success: the formatted details are set and the error kept. On failure: the details are kept and the prefixed details error is set. detailsLoading ends false |
| Fiches.ChecklistsPage.CloseModal | src/components/Dashboard/Fiches.jsx:149-157 | The modal is closed; details and the error are cleared |
| Fiches.ChecklistsPage.DismissError | src/components/Dashboard/Fiches.jsx:185 | Clears the error |
| Fiches.ChecklistsPage.HandlePageChange | src/components/Dashboard/Fiches.jsx:159-163 | The pagination becomes `ChangePage` of the old one |
| Avertissements.AdParts | src/components/Dashboard/Avertissements.jsx:160-165 | Specified by `AdPartsFields`: title, description and isActive in that order, then the image when a file was chosen |
| Avertissements.AdPartsFields | src/components/Dashboard/Avertissements.jsx:158-166 | The body always has title, description and isActive (stringified), and has image iff a file was chosen |
| Avertissements.FormData.Append | src/components/Dashboard/Avertissements.jsx:158-166 | A part is added at the end |
| Avertissements.EditForm | src/components/Dashboard/Avertissements.jsx:100-109 | The form gets the ad's title, description, link and status; other slots are kept |
| Avertissements.CreateThenDelete | src/components/Dashboard/Avertissements.jsx:175 | Creating an ad with a new id and then deleting it restores the list |
| Avertissements.EditThenDelete | src/components/Dashboard/Avertissements.jsx:140-142 | Deleting an ad after editing it equals deleting it without the edit |
| Avertissements.AdsPage.constructor | src/components/Dashboard/Avertissements.jsx:59-70 | Initial state: no ads, every modal closed, the form at its initial values |
| Avertissements.AdsPage.FetchAdvertisements | src/components/Dashboard/Avertissements.jsx:76-93 | The list is the reply. On failure: the server `message` or the fixed text |
| Avertissements.AdsPage.ShowAdDetails | src/components/Dashboard/Avertissements.jsx:95-98 | Sets the current ad and opens the details |
| Avertissements.AdsPage.ShowEditModal | src/components/Dashboard/Avertissements.jsx:100-109 | Sets the current ad, loads `EditForm` and opens the edit modal |
| Avertissements.AdsPage.CloseDetails | src/components/Dashboard/Avertissements.jsx:298 | Closes the details |
| Avertissements.AdsPage.CancelEdit | src/components/Dashboard/Avertissements.jsx:350 | Closes the edit modal |
| Avertissements.AdsPage.OpenCreateModal | src/components/Dashboard/Avertissements.jsx:267 | Opens the create modal |
| Avertissements.AdsPage.CancelCreate | src/components/Dashboard/Avertissements.jsx:384 | Closes the create modal |
| Avertissements.AdsPage.ChooseFile | src/components/Dashboard/Avertissements.jsx:410 | Records the picked file, or none |
| Avertissements.AdsPage.HandleDelete | src/components/Dashboard/Avertissements.jsx:112-127 | On success: `RemoveById`. On failure: the list is unchanged |
| Avertissements.AdsPage.HandleEdit | src/components/Dashboard/Avertissements.jsx:129-150 | A valid form with a current ad goes to `/advertisements/<id>`. On success: `ReplaceById` with the reply, and the modal closes. Otherwise nothing changes |
| Avertissements.AdsPage.HandleCreate | src/components/Dashboard/Avertissements.jsx:152-186 | A valid form sends `AdParts`. On success: the reply is appended, the modal closes, the form resets and the file clears. Otherwise all are kept. Loading always ends |
| Notifications.ChooseRequest | src/components/Dashboard/Notifications.jsx:54-95 | A known tab posts to `/admin/notifications/send-to-<tab>` the base fields plus its extras, copied from the form; an unknown tab gives endpoint '' and payload {} |
| Notifications.ExtrasByAudience | src/components/Dashboard/Notifications.jsx:69-92 | The promotion fields go only to clients and the device token only to a device; all and garages add nothing; no extra field is a base field |
| Notifications.NotificationsPage.constructor | src/components/Dashboard/Notifications.jsx:6-17 | Tab 'all', closed, not sending, no reply, six empty fields |
| Notifications.NotificationsPage.HandleInputChange | src/components/Dashboard/Notifications.jsx:35-41 | Only the named field changes |
| Notifications.NotificationsPage.ResetForm | src/components/Dashboard/Notifications.jsx:43-52 | All six fields are empty |
| Notifications.NotificationsPage.OpenModal | src/components/Dashboard/Notifications.jsx:112-117 | Sets the tab, opens the modal, clears the reply, empties the form |
| Notifications.NotificationsPage.CloseModal | src/components/Dashboard/Notifications.jsx:150-154 | Closes the modal and empties the form |
| Notifications.NotificationsPage.DismissResponse | src/components/Dashboard/Notifications.jsx:281 | Clears the reply |
| Notifications.NotificationsPage.HandleSubmit | src/components/Dashboard/Notifications.jsx:54-110 | The request as in `ChooseRequest`. On success: the modal closes, the reply is shown and the form empties. On failure: `{success: false}` with the server message or the fallback, and modal and form are kept. Sending always ends |
| Profil.FormFor | src/components/Dashboard/Profil.jsx:25-31 | The form holds the profile's name, email and phone, and empty passwords |
| Profil.PasswordMismatch | src/components/Dashboard/Profil.jsx:56 | Specified by `SentPasswordIsConfirmed` and `ProfilePage.HandleSubmit`: a non-empty password that differs from its confirmation; an empty one is never rejected |
| Profil.UpdatePayload | src/components/Dashboard/Profil.jsx:64-72 | Always name, email and phone; the password iff it is non-empty; never the confirmation. Values as typed |
| Profil.SentPasswordIsConfirmed | src/components/Dashboard/Profil.jsx:56-72 | A password that passes validation equals its confirmation; an empty password sends only the three profile fields |
| Profil.UntouchedFormResendsProfile | src/components/Dashboard/Profil.jsx:276-282 | A freshly filled form passes validation and sends the profile back without a password |
| Profil.ProfilePage.constructor | src/components/Dashboard/Profil.jsx:6-17 | No profile, loading, not editing, empty form |
| Profil.ProfilePage.FetchProfile | src/components/Dashboard/Profil.jsx:20-39 | On success: the profile and `FormFor` it. On failure: the load error |
| Profil.ProfilePage.StartEditing | src/components/Dashboard/Profil.jsx:122 | Enters edit mode |
| Profil.ProfilePage.HandleEditChange | src/components/Dashboard/Profil.jsx:44-50 | Only the named field changes |
| Profil.ProfilePage.HandleSubmit | src/components/Dashboard/Profil.jsx:52-92 | A password mismatch sets only the mismatch error and sends nothing. Otherwise `UpdatePayload` is sent. On success: the returned user and message, and edit mode ends. On failure: the server `msg` or the fallback, and the profile is kept |
| Profil.ProfilePage.CancelEdit | src/components/Dashboard/Profil.jsx:273-284 | Leaves edit mode, clears the error, and refills the form from the profile with empty passwords |
| Depannages.StatusTone | src/components/Dashboard/Depannages.jsx:117-121 | Yellow iff pending; green iff accepted; blue otherwise |
| Depannages.StatusLabel | src/components/Dashboard/Depannages.jsx:122-123 | En attente iff pending; Accepté iff accepted; Terminé otherwise |
| Depannages.LabelMatchesTone | src/components/Dashboard/Depannages.jsx:204-210 | Each label comes with exactly one colour |
| Depannages.ListRow | src/components/Dashboard/Depannages.jsx:105-124 | Missing user or garage names show N/A, a missing description shows 'Aucune description', and the status badge |
| Depannages.FirstOf | src/components/Dashboard/Depannages.jsx:180-182 | The first truthy of the two values, else N/A |
| Depannages.Details | src/components/Dashboard/Depannages.jsx:180-223 | Client fields: populated, then flat, then N/A. Garage name likewise. The other garage fields and the location have no flat copy. The badge as in the list, and the description or "Aucune description" |
| Depannages.DetailsNeverBlank | src/components/Dashboard/Depannages.jsx:180-223 | None of the ten cells of the details view is empty; without a populated client the flat name is used |
| Depannages.ServiceRequestsPage.constructor | src/components/Dashboard/Depannages.jsx:6-11 | No requests, loading, modal closed |
| Depannages.ServiceRequestsPage.FetchServiceRequests | src/components/Dashboard/Depannages.jsx:15-26 | A missing list gives []. On failure: the load error |
| Depannages.ServiceRequestsPage.FetchRequestDetails | src/components/Dashboard/Depannages.jsx:32-43 | On success: the request. On failure: the details error |
| Depannages.ServiceRequestsPage.ShowDetailsModal | src/components/Dashboard/Depannages.jsx:45-48 | Opens the modal. On success: the request is selected and the error kept. On failure: the selection is kept and the details error is set. detailsLoading ends false |
| Depannages.ServiceRequestsPage.CloseModal | src/components/Dashboard/Depannages.jsx:50-53 | Closes the modal and forgets the request |
| DashboardAccueil.ApplySuccess | src/components/Dashboard/DashboardAccueil.jsx:18-23 | The state is the server data, loaded, with no error, whatever came before |
| DashboardAccueil.ApplyFailure | src/components/Dashboard/DashboardAccueil.jsx:26-30 | The figures are kept; not loading; the fixed error |
| DashboardAccueil.TotalAccounts | src/components/Dashboard/DashboardAccueil.jsx:97 | The sum when both counts are present; 0 when either is missing (the NaN sum falls back to 0) |
| DashboardAccueil.Figure | src/components/Dashboard/DashboardAccueil.jsx:105-150 | The field when present, 0 when it or its group is missing |
| DashboardAccueil.TotalAgainstCards | src/components/Dashboard/DashboardAccueil.jsx:97-114 | On the figures: the total equals the client figure plus the garage-owner figure when both counts are present; with one missing the total is 0 while the other figure is its count |
| DashboardAccueil.Trend | src/components/Dashboard/DashboardAccueil.jsx:67-72 | ↑ and green iff the value is > 0, otherwise ↓ and red; the magnitude is the absolute value |
| DashboardAccueil.TrendRoundTrip | src/components/Dashboard/DashboardAccueil.jsx:67-72 | Arrow and magnitude give back the value |
| DashboardAccueil.Render | src/components/Dashboard/DashboardAccueil.jsx:37-153 | An error replaces the cards. Otherwise there are seven cards in their order, each with its title and link. Each card shows its group field or 0 (the total card shows `TotalAccounts`), and the garages, requests and checklists cards show the trend of their new-this-month figure. Figures are placeholders exactly while loading |
| DashboardAccueil.RenderedTotalCard | src/components/Dashboard/DashboardAccueil.jsx:96-114 | On the loaded screen, the total card shows the sum of the Clients and Garagistes cards when both counts exist; with one missing it shows 0 while the other card shows its count |
| DashboardAccueil.RenderPanels | src/components/Dashboard/DashboardAccueil.jsx:158-222 | The error view replaces the panels; otherwise each panel figure is its group field or 0 when the group or field is missing, with no loading placeholder |
| DashboardAccueil.PanelsAgreeWithCards | src/components/Dashboard/DashboardAccueil.jsx:96-222 | Once loaded, the panel totals equal the card figures and the absolute values of the panels' new-this-month counts are the cards' trend magnitudes; in the initial state every panel figure is 0 |
| DashboardAccueil.FetchOutcomes | src/components/Dashboard/DashboardAccueil.jsx:15-49 | The first render has only placeholders; a success shows the figures with the total first; a failure shows the error view |
| DashboardAccueil.FailureKeepsFigures | src/components/Dashboard/DashboardAccueil.jsx:26-30 | A later failure keeps the server's figures |
| Statistiques.Total | src/components/Dashboard/Statistiques.jsx:222-243 | Specified by `TotalAppend` and `TotalBoundsEachPoint`: the left-to-right sum of one series over the data |
| Statistiques.TotalAppend | src/components/Dashboard/Statistiques.jsx:222-243 | Totals add over concatenated data, and are 0 for no data |
| Statistiques.TotalBoundsEachPoint | src/components/Dashboard/Statistiques.jsx:222-243 | Over counts, a total is at least each period's value, and never negative |
| Statistiques.FetchErrorText | src/components/Dashboard/Statistiques.jsx:44 | The server `msg`, then the exception's message, then the fallback |
| Statistiques.TokenErrorShowsItsMessage | src/components/Dashboard/Statistiques.jsx:24-25 | The thrown token error shows 'Token non trouvé' |
| Statistiques.StatisticsPage.constructor | src/components/Dashboard/Statistiques.jsx:12-17 | No data, range [a month ago, today], grouped by day, line chart |
| Statistiques.StatisticsPage.FetchStatistics | src/components/Dashboard/Statistiques.jsx:19-48 | Without a token: no request, and 'Token non trouvé'. Otherwise it sends exactly startDate, endDate and groupBy. On success: the data is the series, with no error. On failure: `FetchErrorText`. Loading always ends |
| Statistiques.StatisticsPage.HandleDateChange | src/components/Dashboard/Statistiques.jsx:54-58 | The range is replaced iff exactly two dates are given |
| Statistiques.StatisticsPage.SetGroupBy | src/components/Dashboard/Statistiques.jsx:174 | Sets the grouping |
| Statistiques.StatisticsPage.SetChartType | src/components/Dashboard/Statistiques.jsx:184 | Sets the chart type |

## Left out

- HTTP and the axios instance (`src/constants/api/api.js` is not part of this model). Each call is an `Outcome` parameter of its handler. Headers and the bearer token sent with a request are not modelled.
- react-secure-storage internals: storage is a map. A JSON value that is neither a string nor the user is not modelled.
- Asynchrony:
  - Each handler runs from start to finish in one step. The intermediate `loading: true` at the await is not observable in the model.
  - An un-awaited fetch started by a "show details" handler completes before the modal opens.
  - No interleaving of two handlers is modelled.
- Effects re-run by React when their dependencies change: the checklists refetching when the page or limit changes, and statistics refetching after a change of range or grouping. The fetch methods model one run; when to call them is left to the caller.
- Timers:
  - the 5-second auto-clear of the profile error and success message;
  - the 5-second auto-clear of the notification reply.
- DOM and layout: the pixel scroll of the comment carousel, the click-outside listener of the checklists screen, `window.location.reload`, PDF export, recharts charts, icons, CSS and antd table pagination.
- Date and locale formatting:
  - `toLocaleDateString` and `toLocaleString`;
  - dayjs formatting of the statistics range, which is held as two already-formatted strings;
  - number formatting (`toLocaleString`) on the dashboard cards.
- `translations` lookups are plain own-key lookups. A check code such as "constructor" would, in JavaScript, find an inherited property of the dictionary object; that is not modelled.
- Fiches.Put: a new key is always appended. A JavaScript object lists integer-like keys (such as "1") first in ascending order, so translated groups with numeric keys would be ordered differently. The dictionary codes are not numeric.
- `uploading` of the advertisements screen is declared but never set by a handler, so it is not a field of `AdsPage`.
- The "Dernière vérification" clock time of the home page's activity panel.
- View fallbacks of screens whose display is otherwise not modelled:
  - the checklist list row's `'Non renseigné'` for a missing user name, date or time;
  - `note || 'Aucune'` for a garage's rating, in the users list and in the details modal;
  - `comment.user?.name || 'Anonyme'` in the comment carousel;
  - `currentAd.link || 'Aucun lien'` in the advertisement details.
- User notifications and logging. The model records no notification and no log. Left out:
  - the antd `message.success` and `message.error` toasts of the advertisements screen's fetch, delete, edit, create and validation handlers;
  - `alert("Échec de la suppression")` after a failed user deletion;
  - `console.error` in every handler.

  For a failed delete, edit or create, and a failed user deletion, the toast or alert is all the administrator sees; the model's state is unchanged there.
- Fiches.FormatDetails: the date is passed through unformatted rather than run through `new Date(...).toLocaleDateString('fr-FR')`.
- antd `form.validateFields()` is an abstract `Outcome` parameter of `HandleEdit` and `HandleCreate`. Which rules reject a form is not modelled, nor which registered fields it returns.
- DashboardAccueil.TotalAccounts: a figure sent as JSON `null` is modelled as missing (total 0). In JavaScript `null + n` is `n`, so the source would then show `n`.
- Statistiques.Total: data points are assumed to carry all four figures. A missing figure would make the JavaScript sum NaN.
- Profil.ProfilePage.CancelEdit: requires a loaded profile. With none, the source's handler throws a TypeError at `profile.name`; the button is only reachable once the profile has loaded.
- src/components/Dashboard/UserDetails.jsx, src/App.jsx (a static route table), src/components/Savoir.jsx and src/pages/Accueil/Accueil.jsx (static markup whose only logic is the token-dependent link already covered by `Nav`) are not part of this model.
