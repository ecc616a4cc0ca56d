# Student book marketplace — a Dafny model of its client-side logic

The application lets students list textbooks for sale or swap, browse and
search the listings, order a book with a delivery address, and follow their
listings and orders on a dashboard. Storage, authentication and file
hosting belong to a hosted backend. What the client decides for itself is
modelled here, one Dafny module per source file:

- `Marketplace` (`marketplace.dfy`): the search and category filter over
  the fetched listings, and the category badges.
- `AddListing` (`add_listing.dfy`): the three-step listing wizard as a class
  (`ListingWizard`) whose step and form change in place. It also covers
  the photo's storage path `<user id>/<timestamp>.<extension>`, the
  inserted record, and the upload-then-insert submission.
- `BuyDialog` (`buy_dialog.dfy`): the order dialog as a class
  (`OrderDialog`). It checks the address, then writes a pending purchase
  transaction, then writes the seller's notification.
- `Dashboard` (`dashboard.dfy`): the page state (`DashboardState`), local
  removal of a deleted listing, the status pill colours, the title fallback
  and the redirect/fetch decision.
- `Auth` (`auth.dfy`): the sign-in retry loop. It makes at most two attempts
  and clears the local session before each. Also the page's loading flag
  and the error text it shows.
- `UseAuth` (`use_auth.dfy`): the stored-session validator that removes a
  corrupted token from browser storage, and the session provider.
- `Common` (`common.dfy`): `Option`, the backend `Reply`, ASCII case
  folding, the substring test and order-preserving subsequences.

Every backend call is a parameter of the method that makes it: the model
quantifies over every reply the backend could give (`Reply.Ok(data)` or
`Reply.Err(message)`). The methods return the list of calls they issued. So
"no insert after a failed upload" or "no notification after a failed
transaction" are postconditions about that list. The clock
(`Date.now`) and `JSON.parse` are parameters too. Browser storage is a
`LocalStorage` object holding a `map`.

The filter's sentinel category is exactly `"All"`; the comparison is
case-sensitive. The dashboard code has no order-status update and no live
notification feed, so the model has neither.

## Model

| member | source | states |
|---|---|---|
| `Marketplace.Filter` | src/pages/Marketplace.tsx:44-50 | every result is an input book whose lower-cased title or author contains the lower-cased search; with a category other than "All", every result has that category; every input book passing both tests is in the result; never longer than the input |
| `Marketplace.FilterIsSubsequence` | src/pages/Marketplace.tsx:44-50 | the result is a subsequence of the input, in the input's order |
| `Marketplace.FilterIdempotent` | src/pages/Marketplace.tsx:44-50 | filtering the result again with the same search and category gives the same list |
| `Marketplace.FilterInitialShowsAll` | src/pages/Marketplace.tsx:24-50 | with the initial empty search and category "All" the whole fetched list is shown, unchanged |
| `Marketplace.FilterSameFolding` | src/pages/Marketplace.tsx:45-47 | two searches that lower-case to the same text select the same books |
| `Marketplace.SearchIsCaseInsensitive` | src/pages/Marketplace.tsx:45-47 | upper-casing or lower-casing the search text does not change the result |
| `Marketplace.CategoriesExtendListingCategories` | src/pages/Marketplace.tsx:8 | the filter badges are "All" followed by exactly the seven categories of the listing form (src/pages/AddListing.tsx:15), and "All" is not one of those |
| `AddListing.Set` | src/pages/AddListing.tsx:37-39 | `updateForm`: the named field takes the new value and every other field keeps its value |
| `AddListing.ListingWizard.constructor` | src/pages/AddListing.tsx:22-35 | the wizard starts on step 1 with empty text fields, swap off, condition "Good", category "Other", no photo, not loading |
| `AddListing.ListingWizard.UpdateForm` | src/pages/AddListing.tsx:111-173 | an edit through an input rendered on the current step changes only that field and keeps the wizard invariant |
| `AddListing.ListingWizard.Next` | src/pages/AddListing.tsx:134-168 | moves exactly one step forward exactly when "Next" is enabled: step 1 needs title and author, step 2 needs swap or a price; the step stays in 1..3 and steps past 1 (or 2) keep their entry conditions |
| `AddListing.ListingWizard.Back` | src/pages/AddListing.tsx:165-192 | from step 3 or 2 goes back one step unconditionally; the invariant is kept |
| `AddListing.ListingWizard.ChooseImage` | src/pages/AddListing.tsx:41-47 | a chosen file replaces the photo, an empty selection keeps the old one |
| `AddListing.Extension` | src/pages/AddListing.tsx:57 | the extension contains no dot, ends the file name, and is either the whole name or preceded by a dot (the text after the last dot) |
| `AddListing.ExtensionAfterDot` | src/pages/AddListing.tsx:57 | whatever comes before the last dot, the extension is what follows it |
| `AddListing.Decimal` | src/pages/AddListing.tsx:58 | the timestamp's text is a non-empty string of decimal digits |
| `AddListing.DecimalRoundTrip` | src/pages/AddListing.tsx:58 | reading the timestamp's text back gives the timestamp |
| `AddListing.ImagePathFolder` | src/pages/AddListing.tsx:58 | the storage path starts with the user id and "/" |
| `AddListing.ImagePathExtension` | src/pages/AddListing.tsx:57-58 | the storage path's extension is the photo's extension |
| `AddListing.ImagePathStamp` | src/pages/AddListing.tsx:58 | between the folder and ".ext" the path holds the decimal timestamp |
| `AddListing.NewListing` | src/pages/AddListing.tsx:69-79 | the inserted record has no price exactly when it is swap-only, is_swap equals the form's flag, a non-swap price is the form's price, and the other fields are copied from the form and user |
| `AddListing.PlanSubmit` | src/pages/AddListing.tsx:49-90 | a photo is uploaded first under `ImagePath`; a failed upload ends the submission with its message and no insert; otherwise exactly one insert of `NewListing`, with the photo URL exactly when a photo was uploaded, and the insert's reply decides published or failed |
| `AddListing.PublishedRecordComplete` | src/pages/AddListing.tsx:73-74 | a form that passed both "Next" guards (lines 134, 168) yields an inserted record with title, author, the user's id, and price text unless swap-only |
| `AddListing.ListingWizard.Submit` | src/pages/AddListing.tsx:49-90 | without a user nothing is called and nothing changes; with one, the calls and outcome are `PlanSubmit`'s and loading ends false |
| `BuyDialog.Set` | src/components/BuyDialog.tsx:44-46 | `handleChange`: the named address field takes the value, the other four keep theirs |
| `BuyDialog.CompleteMeansEveryField` | src/components/BuyDialog.tsx:54-57 | the submit check passes exactly when every one of the five address fields is non-empty |
| `BuyDialog.PaymentLabel` | src/components/BuyDialog.tsx:90 | the label is "Cash on Delivery" exactly for "cash" and "Online Payment" for every other method |
| `BuyDialog.OrderMessageNamesPayment` | src/components/BuyDialog.tsx:90 | the seller's message ends with ". Payment: <label>." |
| `BuyDialog.OrderDialog.constructor` | src/components/BuyDialog.tsx:34-42 | the dialog starts not submitting, paying cash, with all five address fields empty |
| `BuyDialog.OrderDialog.HandleChange` | src/components/BuyDialog.tsx:44-46 | only the named field of the form changes |
| `BuyDialog.OrderDialog.ChoosePayment` | src/components/BuyDialog.tsx:174 | the radio group sets the payment method |
| `BuyDialog.OrderDialog.HandleSubmit` | src/components/BuyDialog.tsx:48-98 | no user: redirect to sign-in, no write; an empty address field: no write, state unchanged; otherwise first a pending purchase from the book's seller to the user; if it fails, nothing else is written and the form is kept; if it succeeds, one notification to the seller referencing the new transaction id, then the form is cleared and submitting is false whatever the notification's reply |
| `Dashboard.RemoveById` | src/pages/Dashboard.tsx:64 | a book is kept exactly when it was in the list and its id differs from the deleted one |
| `Dashboard.RemoveByIdKeepsOrder` | src/pages/Dashboard.tsx:64 | the kept books stay in their order, and exactly the books with that id are dropped |
| `Dashboard.RemoveAbsentIsIdentity` | src/pages/Dashboard.tsx:64 | deleting an id no listed book has leaves the list as it was |
| `Dashboard.DashboardState.constructor` | src/pages/Dashboard.tsx:36-38 | the page starts with empty lists and loading |
| `Dashboard.DashboardState.ReceiveData` | src/pages/Dashboard.tsx:54-56 | each list is replaced only when its query returned data; loading ends either way |
| `Dashboard.DashboardState.DeleteBook` | src/pages/Dashboard.tsx:59-67 | one delete call; on success the books with that id leave the list and the rest keep their order; on failure the list is unchanged |
| `Dashboard.DashboardState.Render` | src/pages/Dashboard.tsx:69-94 | the loading view exactly while auth or data is loading; otherwise the tab counts are the two list lengths |
| `Dashboard.DisplayTitle` | src/pages/Dashboard.tsx:149 | the joined book's title, or "Unknown Book" when the join is empty |
| `Dashboard.StatusBadge` | src/pages/Dashboard.tsx:152-156 | success exactly for "completed", accent exactly for "pending", muted for every other string |
| `Dashboard.OnAuthState` | src/pages/Dashboard.tsx:40-46 | redirect to sign-in exactly when auth has finished loading with no user; fetch exactly when there is a user |
| `Auth.DisplayMessage` | src/pages/Auth.tsx:61-66 | a fetch failure shows the fixed network notice; any other error shows its own message |
| `Auth.FetchErrorIgnoresCase` | src/pages/Auth.tsx:52 | recognising "failed to fetch" does not depend on the message's letter case |
| `Auth.ScheduleShape` | src/pages/Auth.tsx:41-56 | in the steps of n attempts, each attempt comes right after a local sign-out, attempts are numbered in order and below n |
| `Auth.SignInWithRetry` | src/pages/Auth.tsx:41-58 | one or two attempts, each preceded by a local sign-out; a second exactly when the first failed with a fetch error; success exactly when the last attempt made succeeded; otherwise the error raised is the last attempt's |
| `Auth.AuthPage.constructor` | src/pages/Auth.tsx:11 | the page starts not loading |
| `Auth.AuthPage.HandleSignIn` | src/pages/Auth.tsx:27-72 | loading is false on every way out; the steps are those of the attempts made; the last reply decides between the dashboard and the `DisplayMessage` of its error |
| `UseAuth.ShouldRemoveIffUnusable` | src/hooks/useAuth.tsx:28-38 | the stored value is removed exactly when it does not parse, or neither it nor its first array element is an object with a string refresh token of at least 20 characters |
| `UseAuth.ArrayJudgedByFirst` | src/hooks/useAuth.tsx:30-33 | an array is judged by its first element, a nested array is removed, an empty array is removed |
| `UseAuth.AfterCleanup` | src/hooks/useAuth.tsx:20-39 | only the key "sb-<project>-auth-token" can disappear and no value changes; without a project id nothing changes; an existing key is removed exactly when its value is non-empty and the validator rejects it |
| `UseAuth.ClearInvalidStoredSession` | src/hooks/useAuth.tsx:20-39 | the storage afterwards is `AfterCleanup` of the storage before |
| `UseAuth.AuthProvider.constructor` | src/hooks/useAuth.tsx:16-18 | no user, no session, loading |
| `UseAuth.AuthProvider.OnSession` | src/hooks/useAuth.tsx:44-54 | after any session event the session is stored, the user is the session's user (none without a session), and loading is false |

## Left out

- Backend calls (inserts, selects, deletes, storage upload, public URL, sign-in, local sign-out) are not executed. Their replies are parameters, so every contract covers every reply.
- The queries of the dashboard and marketplace fetches and the concurrent `Promise.all` are left out (remote queries). Only the state update of `fetchData` is modelled (`ReceiveData`). The marketplace's `setBooks` after its fetch is not modelled.
- `parseFloat` of the price is floating point. The record carries the price input's text instead.
- `Date.now` is the `now` parameter. `URL.createObjectURL` and the photo preview are display only.
- `JSON.parse` is the `parse` parameter (`None` when it throws).
- `toLowerCase` and the case-insensitive regular expression are ASCII case folding plus a substring test. Unicode case mapping is not modelled.
- Refresh-token length is counted in Dafny characters, not UTF-16 code units.
- Toasts, navigation and rendering appear only as outcome values (`Published`, `OrderPlaced`, `ToDashboard`, `RedirectToAuth`, ...).
- The sign-up branch of the sign-in form (src/pages/Auth.tsx:32-39) is a single backend call with no logic.
- The listing page's render-time redirect when signed out (src/pages/AddListing.tsx:92-95) is navigation only.
- Disabling the submit buttons while loading or submitting is not modelled. Neither are responses that arrive after the page has gone.
- Navbar, Footer, the landing page and the book card are presentational only. Footer.tsx, Navbar.tsx, Index.tsx and BookCard.tsx are not part of this model.
- The unsubscription of the session listener on unmount is not modelled.
