# square-desktop-cours front-end core in Dafny

The application is a desktop course-management client. Administrators, instructors, students and their
parents use it to browse classes and courses, build quizzes, follow chapters, hold video conferences and
receive notifications about meetings and unpaid invoices (factures). This project models the logic of its
TypeScript front end, one Dafny module per source file:

- **Stores.** `NotificationStore`, `FactureStore` and `UserStore` are classes whose methods update the store
  fields in place. The notification and invoice stores keep an unread (unpaid) counter. It is proved equal to
  the number of unread (unpaid) entries after every action, as long as ids are distinct.
- **Notification producers.** `SocketProvider` turns `send-meet-notification` batches into notification cards.
  `FactureCheck` is the one-shot unpaid-invoice reminder. `NotificationPage` filters, sorts and batch-edits
  notifications.
- **Lists and pages.** This group covers:
  - the class filter and its active-filter chips (`ClassFilter`);
  - the pagination hook (`ClassPagination`) and the five-link window it shares with the course page
    (`PaginationControls`, `CourPage`);
  - the lesson query builder (`FilteredLessons`) and the chapter-resume rule (`ChapterResume`);
  - the two-level page/image navigation of the document gallery (`DocumentGallery`);
  - conference filtering (`ConferenceList`) and class selection for course access (`CourseAccess`,
    `AddConference`).
- **Quiz editors.** `QuizEditor`, `QuestionCreator`, `QuestionForm`, `QuizBuilder`, `QuizParametre`, `QcmForm`,
  `QuestionList`, `QuizList`, `QuizPreview` and `LegacyQuizBuilder` model the near-duplicate editors: option
  bounds, correct-answer repair rules, index re-basing, list editing and submit-time validation.
  `QuizOptions` holds the rules they share.
- **Small engines.** These are:
  - the chunked file upload, with its retry budget of 3 per chunk (`ChunkedUpload`);
  - the WebSocket handler registry and its reconnect budget (`WebSocketService`);
  - the retry queue (`RetryQueue`);
  - the two confirm-before-leaving state machines (`SafeNavigation`, `NavLink`).
- **Validators.** `LoginSchema`, `MeetSchema`, `CoursSchema`, `QuizSchema` and `SimpleCoursSchema` model the zod
  schemas as parsers from a dynamic JSON-like value (`JsValue.Json`). Each schema is proved to round-trip:
  a value written as a form value parses back to itself exactly when it satisfies the schema's rules.
  `UpdateBody` models `parseUpdateBody`.

Helper modules give JavaScript built-ins their meaning:
- `Wrappers` holds Option and Result.
- `JsText` covers `trim`, ASCII `toLowerCase`, `includes`, `split`/`join`, `parseInt` and `String(n)`.
- `StableSort` is the stable `Array.prototype.sort`, written as an insertion sort on an integer key.
- `UrlParams` is the `URLSearchParams` form encoding.
- `JsValue` provides dynamic values, zod's `optional` and `array`, and string lengths in UTF-16 code units.

A handler that reads and writes React state becomes a method on a class that holds that state. A handler
that only computes becomes a function. A toast that rejects an edit becomes an `Err` result that leaves the
state unchanged.

Several things the code takes from outside are parameters:
- the clock (`Date.now()` ids and timestamps);
- server responses;
- `isRequestInProgress()`;
- socket readiness;
- the upload server, which is an oracle from chunk attempt to response: an answer of any status, a thrown error, or a cancellation. As with the default validateStatus of the shared axios instance, only a 2xx answer resolves a request; any other status rejects it with "Request failed with status code" and the status.

Where the code and the types it declares disagree, the model follows the code. For example, the chapter
layout reads `isComplete` from the progress entries, while the declared field is `isCompleted`.
`ChapterResume.StoredFlagIgnored` shows the effect: a learner whose progress carries only the declared flag
is sent back to the first chapter. The native Tauri shell under `src-tauri` only wraps the MAC-address
crate, formats a greeting and registers plugins. It is not part of this model.

## Model

| member | source | states |
|---|---|---|
| NotificationStore.CountUnreadZero | src/store/notification-store.ts:94 | the unread count is zero exactly when every entry is read |
| NotificationStore.MarkedRead | src/store/notification-store.ts:120 | a marked entry keeps its id and is read with status "read" |
| NotificationStore.MarkReadInAt | src/store/notification-store.ts:118-121 | markAsRead keeps length and order and changes only the entries with that id |
| NotificationStore.MarkReadInCount | src/store/notification-store.ts:122-125 | with distinct ids the unread count drops by one exactly when an unread entry had the id |
| NotificationStore.MarkReadInIdempotent | src/store/notification-store.ts:118-121 | marking the same id read twice equals marking it once |
| NotificationStore.MarkReadInIds | src/store/notification-store.ts:119-121 | markAsRead keeps the list of ids |
| NotificationStore.MarkAllReadFacts | src/store/notification-store.ts:140-147 | markAllAsRead keeps length, order and ids, marks every entry read and leaves no unread entry |
| NotificationStore.FindById | src/store/notification-store.ts:158 | the entry found is the first with that id, and none is found exactly when the id is absent |
| NotificationStore.RemoveIdSpec | src/store/notification-store.ts:162 | removal leaves no entry with the id, keeps exactly the other entries, and is the identity when the id is absent |
| NotificationStore.RemoveIdMembers | src/store/notification-store.ts:162 | the entries left by a removal are exactly the entries with another id |
| NotificationStore.RemoveIdAbsent | src/store/notification-store.ts:162 | removing an id no entry has leaves the list unchanged |
| NotificationStore.RemoveIdCount | src/store/notification-store.ts:158-167 | with distinct ids the unread count drops by one exactly when the entry found was unread |
| NotificationStore.RemoveIdDistinct | src/store/notification-store.ts:162 | removal keeps ids distinct |
| NotificationStore.FromBackend | src/store/notification-store.ts:76-89 | a fetched entry keeps its id and body, is read iff its status is "read", and a missing or empty type becomes "system" |
| NotificationStore.FromBackendAll | src/store/notification-store.ts:60-90 | the fetched list maps one to one, in order |
| NotificationStore.FromBackendCount | src/store/notification-store.ts:94 | the counter set after a fetch equals the number of fetched entries whose status is not "read" |
| NotificationStore.Store.constructor | src/store/notification-store.ts:50-53 | the store starts empty with a zero counter, not loading and without error |
| NotificationStore.Store.FetchInitialNotifications | src/store/notification-store.ts:56-104 | on success the list is the mapped response and the counter its unread count; on failure the list and counter are kept and the error is set; loading ends false |
| NotificationStore.Store.AddNotification | src/store/notification-store.ts:106-114 | a known id changes nothing; a new entry goes to the front and raises the counter iff unread; the counter invariant and distinct ids are preserved |
| NotificationStore.Store.MarkAsRead | src/store/notification-store.ts:116-126 | the list is marked and the counter drops iff an unread entry had the id; the invariant is preserved |
| NotificationStore.Store.MarkAllAsRead | src/store/notification-store.ts:138-147 | every entry is read and the counter is zero |
| NotificationStore.Store.RemoveNotification | src/store/notification-store.ts:157-167 | the entries with the id are removed and the counter drops iff the entry found was unread; the invariant is preserved |
| NotificationStore.Store.ClearNotifications | src/store/notification-store.ts:177-179 | the list is empty and the counter zero |
| NotificationStore.MarkReadIn | src/store/notification-store.ts:118-121 | defines the list after markAsRead; MarkReadInAt, MarkReadInIds, MarkReadInCount and MarkReadInIdempotent state its effect |
| NotificationStore.MarkAllRead | src/store/notification-store.ts:140-147 | defines the list after markAllAsRead; MarkAllReadFacts states its effect |
| NotificationStore.RemoveId | src/store/notification-store.ts:162 | defines the list after removeNotification; RemoveIdSpec, RemoveIdCount and RemoveIdDistinct state its effect |
| NotificationStore.WithAdded | src/store/notification-store.ts:106-115 | defines the list after addNotification: a known id is ignored and a new entry goes to the front; Store.AddNotification states the counter update beside it |
| FactureStore.ToFacture | src/store/facture-store.ts:55-65 | a kept entry becomes a facture with id factureId, title "Facture " + numeration, createdAt endDate, and the same status and day difference |
| FactureStore.DueSoonSpec | src/store/facture-store.ts:48-65 | a fetched facture is exactly the mapping of some entry that is unpaid with 0 <= daysDifference <= 5 |
| FactureStore.DueSoonAllUnpaid | src/store/facture-store.ts:67-70 | every fetched facture is unpaid, so setting the counter to the list length keeps the counter invariant |
| FactureStore.MarkPaidInAt | src/store/facture-store.ts:95-97 | markAsPaid keeps length and order and changes only the entries with that id, to "paid" |
| FactureStore.MarkPaidInCount | src/store/facture-store.ts:98-102 | with distinct ids the unpaid count drops by one exactly when an unpaid entry had the id |
| FactureStore.Store.constructor | src/store/facture-store.ts:39-42 | the store starts empty with a zero counter, not loading and without error |
| FactureStore.Store.FetchFactures | src/store/facture-store.ts:44-79 | on success the list and the returned value are the kept factures and the counter their number; on failure [] is returned, the list and counter are kept and the error is set |
| FactureStore.Store.AddFacture | src/store/facture-store.ts:81-91 | a known id changes nothing; a new facture goes to the front and raises the counter iff unpaid; the invariant and distinct ids are preserved |
| FactureStore.Store.MarkAsPaid | src/store/facture-store.ts:93-104 | the list is marked and the counter drops iff an unpaid entry had the id; the invariant is preserved |
| FactureStore.Store.ClearFactures | src/store/facture-store.ts:106-108 | the list is empty and the counter zero |
| FactureStore.DueSoon | src/store/facture-store.ts:48-65 | defines the factures a fetch keeps; DueSoonSpec and DueSoonAllUnpaid state which they are |
| FactureStore.MarkPaidIn | src/store/facture-store.ts:95-97 | defines the list after markAsPaid; MarkPaidInAt and MarkPaidInCount state its effect |
| UserStore.Store.constructor | src/store/user-store.ts:19-20 | both the credentials and the decoded user start null |
| UserStore.Store.SetCredentials | src/store/user-store.ts:21 | the credentials are replaced and the decoded user is kept |
| UserStore.Store.SetDecodedUser | src/store/user-store.ts:22 | the decoded user is replaced and the credentials are kept |
| UserStore.Store.RemoveCredentials | src/store/user-store.ts:23 | both fields become null |
| UserStore.PrivateRoute | src/lib/route-guard.tsx:9-12 | the page renders iff credentials are present, otherwise it redirects to "/" |
| UserStore.PublicRoute | src/lib/route-guard.tsx:14-17 | the page renders iff no credentials are present, otherwise it redirects to "/dashboard/classes" |
| NotificationPage.FilterShownSpec | src/pages/notification/notification-page.tsx:54-59 | an entry is kept exactly when it is in the store and passes both the read filter and the type filter |
| NotificationPage.FilterShown | src/pages/notification/notification-page.tsx:54-59 | defines the entries that pass the read and type filters, in store order; FilterShownSpec states which they are |
| NotificationPage.FilteredNotificationsSpec | src/pages/notification/notification-page.tsx:54-64 | the view holds exactly the passing store entries, each as often as in the store, ordered by time stamp, newest or oldest first |
| NotificationPage.TypeLabel | src/pages/notification/notification-page.tsx:137-154 | each of the six known types has its fixed label, in both directions, and every other type reads "Notification" |
| NotificationPage.Without | src/pages/notification/notification-page.tsx:397 | the filtered selection holds exactly the other ids |
| NotificationPage.WithoutAbsent | src/pages/notification/notification-page.tsx:397 | filtering out an absent id keeps the selection as it is |
| NotificationPage.ToggledSpec | src/pages/notification/notification-page.tsx:395-401 | a click in select mode flips the card's membership, leaves every other id as it was, and two clicks on an unselected card restore the selection |
| NotificationPage.WithoutAppend | src/pages/notification/notification-page.tsx:397-399 | filtering out an id just appended gives the same as filtering the selection before the append |
| NotificationPage.MarkReadEachSpec | src/pages/notification/notification-page.tsx:98-99 | batch mark-read marks exactly the selected entries read and keeps length and order |
| NotificationPage.MarkReadEachSnoc | src/pages/notification/notification-page.tsx:99 | marking a list of ids then one more equals marking the extended list |
| NotificationPage.RemoveEachSnoc | src/pages/notification/notification-page.tsx:105 | removing a list of ids then one more equals removing the extended list |
| NotificationPage.RemoveEachSpec | src/pages/notification/notification-page.tsx:104-105 | batch dismiss keeps exactly the entries whose id was not selected |
| NotificationPage.Page.constructor | src/pages/notification/notification-page.tsx:47-51 | the page starts with filter "all", type "all", newest first, an empty selection and select mode off |
| NotificationPage.Page.ToggleSelectMode | src/pages/notification/notification-page.tsx:111-114 | the mode flips and the selection is emptied; the filters are kept |
| NotificationPage.Page.CardClick | src/pages/notification/notification-page.tsx:392-402 | outside select mode an unread card is marked read and a read one changes nothing; in select mode the card's id is toggled; the store invariant is preserved |
| NotificationPage.Page.BatchMarkAsRead | src/pages/notification/notification-page.tsx:98-102 | every selected id is marked read in turn, then the selection is emptied and select mode left |
| NotificationPage.Page.BatchDismiss | src/pages/notification/notification-page.tsx:104-108 | every selected id is removed in turn, then the selection is emptied and select mode left |
| NotificationPage.FilteredNotifications | src/pages/notification/notification-page.tsx:54-64 | defines the shown list; FilteredNotificationsSpec states which entries it holds and in which order |
| NotificationPage.Toggled | src/pages/notification/notification-page.tsx:395-401 | defines the selection after a click in select mode; ToggledSpec states that the click flips that card only |
| NotificationPage.MarkReadEach | src/pages/notification/notification-page.tsx:98-99 | defines the list after marking each selected id read; MarkReadEachSpec states its effect |
| NotificationPage.RemoveEach | src/pages/notification/notification-page.tsx:104-105 | defines the list after dismissing each selected id; RemoveEachSpec states its effect |
| SocketProvider.MinutesAtEnd | src/providers/socket.tsx:84 | a "<digits> minutes" match starting at a position ends exactly where the maximal digit run ends |
| SocketProvider.MinutesAtContains | src/providers/socket.tsx:83-84 | any "<digits> minutes" match implies the body contains "minutes", so the includes guard never hides a match |
| SocketProvider.MinutesFrom | src/providers/socket.tsx:84 | the match found is the leftmost one at or after the start, and none is found only when there is no match |
| SocketProvider.MeetingDurationSpec | src/providers/socket.tsx:83-85 | when the body has a "<digits> minutes" match, the duration is its leftmost match; when it has none, the duration is "120 minutes" |
| SocketProvider.MeetingDurationLeftmost | src/providers/socket.tsx:83-85 | the leftmost "<digits> minutes" match of the body is the duration shown |
| SocketProvider.MeetingDurationDefault | src/providers/socket.tsx:83-85 | a body with no "<digits> minutes" match shows "120 minutes" |
| SocketProvider.MeetingDurationFound | src/providers/socket.tsx:83-85 | a body with some match shows a match that is leftmost |
| SocketProvider.MinutesFromLeftmost | src/providers/socket.tsx:84 | the match the scan from the start returns is the leftmost match of the body |
| SocketProvider.NormalType | src/providers/socket.tsx:89-104 | a type among system, invitation, comment, react, chat and meet is kept; any other becomes "system" |
| SocketProvider.ToItem | src/providers/socket.tsx:73-107 | a card has id "socket-" + userId, is unread, carries the normalised type and the extracted duration, and falls back to the placeholder avatar |
| SocketProvider.ForUser | src/providers/socket.tsx:71-72 | only entries addressed to the user are kept, never more than the batch holds; ForUserSpec and ForUserAppend state that every addressed entry is kept, in batch order |
| SocketProvider.ForUserSpec | src/providers/socket.tsx:71-72 | an entry becomes a card candidate exactly when it is a non-null entry of the batch addressed to the user |
| SocketProvider.ForUserAppend | src/providers/socket.tsx:71-72 | filtering two batches joined is filtering each and joining, so the kept entries keep their batch order |
| SocketProvider.ToItems | src/providers/socket.tsx:73 | the cards map one to one, in batch order |
| SocketProvider.AsNotification | src/providers/socket.tsx:110 | the object handed to the store keeps the card's id, type and read flag |
| SocketProvider.AddEachSnoc | src/providers/socket.tsx:110 | adding a list of cards then one more equals adding the extended list |
| SocketProvider.TransformIds | src/providers/socket.tsx:66-74 | every card of a batch for a signed-in user has id "socket-" + that user's id and is unread |
| SocketProvider.SameIdDropsLater | src/providers/socket.tsx:74 | once a card with the shared id is in the store, adding any further cards with that id leaves the store unchanged |
| SocketProvider.SecondAnnouncementLost | src/providers/socket.tsx:71-74 | of two announcements for the same user in one batch, two cards are built but only the first reaches the store |
| SocketProvider.ToItemWithId | src/providers/socket.tsx:73-107 | the card built with a caller-supplied id differs from the written one in its id only |
| SocketProvider.FreshIdsAllAdded | src/providers/socket.tsx:110 | with distinct ids new to the store, every card is added and each raises the unread count by one |
| SocketProvider.Provider.constructor | src/providers/socket.tsx:38 | the stack starts empty |
| SocketProvider.Provider.OnMeetNotification | src/providers/socket.tsx:65-117 | without a user id nothing changes; otherwise each card goes to the store in order, the cards are appended to the stack, and the sound plays iff there was a card; the store invariant is preserved |
| SocketProvider.Provider.DeclineMeeting | src/providers/socket.tsx:48-51 | the new stack is the old one filtered, in order, to the cards whose id differs |
| SocketProvider.DeclinedSpec | src/providers/socket.tsx:48-51 | the filtered stack holds exactly the cards with another id and is never longer |
| SocketProvider.DeclineAbsent | src/providers/socket.tsx:48-51 | declining an id no card has leaves the stack unchanged |
| SocketProvider.DeclineTwice | src/providers/socket.tsx:48-51 | declining the same id twice is the same as declining it once |
| SocketProvider.AddAll | src/providers/socket.tsx:110 | the store receives the cards one after the other in order, and its unread count stays in step |
| SocketProvider.MeetingDuration | src/providers/socket.tsx:83-85 | defines the duration shown on a card; MeetingDurationSpec states that it is the leftmost match or the default |
| SocketProvider.Declined | src/providers/socket.tsx:50 | defines the stack after declining, as an order-preserving filter; DeclinedSpec, DeclineAbsent and DeclineTwice state its effect |
| SocketProvider.Transform | src/providers/socket.tsx:66-107 | defines the cards built from a batch; without a user id there are none, otherwise one card per entry ForUser keeps, in order: ForUserSpec and ForUserAppend say which entries those are, ToItems and TransformIds what the cards hold |
| SocketProvider.AddEach | src/providers/socket.tsx:110 | defines the store list after each card is added in turn; AddEachSnoc, SameIdDropsLater and FreshIdsAllAdded state its effect |
| FactureCheck.FirstUnpaid | src/hooks/use-facture.ts:17 | the invoice found is the first unpaid one in fetched order, and none is found exactly when none is unpaid |
| FactureCheck.FirstOfFetch | src/hooks/use-facture.ts:16-17 | since a fetch returns only unpaid invoices, the one found is the first fetched, whenever the fetch returned any |
| FactureCheck.AlertFor | src/hooks/use-facture.ts:32-42 | the alert has id "facture-" + the invoice id, type "alert", is unread with status "unread", points at "mes-factures" and names the invoice number |
| FactureCheck.Hook.constructor | src/hooks/use-facture.ts:9 | the shown flag starts false |
| FactureCheck.Hook.Load | src/hooks/use-facture.ts:12-46 | without an allowed role, or once shown, nothing happens; otherwise the invoices are fetched (the invoice store holds the kept invoices and their count on a response, and keeps its list on a failure), the first unpaid one becomes the alert added to the store, and the flag is set exactly when one was found |
| FactureCheck.MayCheck | src/hooks/use-facture.ts:13 | defines the role guard of load: a user id and a role, which must be student or responsable; Hook.Load states that nothing happens without it |
| ClassFilter.CountGender | src/pages/classe/hooks/use-filter.ts:68-73 | a gender count never exceeds the number of students |
| ClassFilter.FilteredClasses | src/pages/classe/hooks/use-filter.ts:43-122 | the filtered list is never longer than the input |
| ClassFilter.FilteredClassesSpec | src/pages/classe/hooks/use-filter.ts:45-120 | a class is kept exactly when it is in the input and passes the search, date, gender, instructor and size rules |
| ClassFilter.Keep | src/pages/classe/hooks/use-filter.ts:45-120 | defines the filter predicate as the conjunction of the search, date, gender, instructor and size rules; FilteredClassesSpec, NoFilterKeepsAll, SizeClassesPartition and GenderExclusive state what it keeps |
| ClassFilter.NoFilterKeepsAll | src/pages/classe/hooks/use-filter.ts:29-38 | with every filter empty the list is returned whole and in order |
| ClassFilter.SizeClassesPartition | src/pages/classe/hooks/use-filter.ts:105-117 | every student count falls in exactly one of small (<= 15), medium (16..30) and large (>= 31) |
| ClassFilter.GenderExclusive | src/pages/classe/hooks/use-filter.ts:75-80 | with a student list, no class is both male and female dominant |
| ClassFilter.Kinds | src/pages/classe/hooks/use-filter.ts:126-178 | the chip kinds map one to one, in order |
| ClassFilter.ChipsForKinds | src/pages/classe/hooks/use-filter.ts:126-178 | a kind has a chip exactly when it is listed and its filter is set |
| ClassFilter.ChipsFor | src/pages/classe/hooks/use-filter.ts:126-178 | defines the chips for a list of kinds, in that order; ChipsForKinds, ChipsForTexts and ChipsForOrdered state which chips and in which order |
| ClassFilter.ChipsForTexts | src/pages/classe/hooks/use-filter.ts:126-178 | every chip belongs to a listed kind and carries that kind's text |
| ClassFilter.ChipsForOrdered | src/pages/classe/hooks/use-filter.ts:126-178 | over kinds listed by rank, the chips are ordered by rank |
| ClassFilter.ChipOrderUnfold | src/pages/classe/hooks/use-filter.ts:128-178 | the chip bar is the concatenation of the five kinds' chips in the fixed order |
| ClassFilter.ActiveFilters | src/pages/classe/hooks/use-filter.ts:125-181 | the chips pushed one by one equal the chips of the fixed kind order |
| ClassFilter.ActiveFiltersSpec | src/pages/classe/hooks/use-filter.ts:125-181 | the bar holds one chip exactly for each set filter, with its text, in the order search, dateRange, gender, instructorCount, studentCount |
| ClassFilter.Hook.constructor | src/pages/classe/hooks/use-filter.ts:29-38 | the filters start empty |
| ClassFilter.Hook.UpdateFilter | src/pages/classe/hooks/use-filter.ts:184-192 | updateFilter replaces one field and keeps the others |
| ClassFilter.Hook.RemoveFilter | src/pages/classe/hooks/use-filter.ts:195-207 | removeFilter resets the named field only, leaves every other filter as set or unset as before, and ignores an unknown kind |
| ClassFilter.Hook.ClearAllFilters | src/pages/classe/hooks/use-filter.ts:210-221 | every field returns to empty and no filter is set |
| ClassPagination.PageInfoRange | src/pages/classe/hooks/use-pagination.ts:19-27 | for a page that starts inside the list, start and end are 1-based, ordered, inside the list, and span min(itemsPerPage, items left) entries |
| ClassPagination.PageInfoOf | src/pages/classe/hooks/use-pagination.ts:19-27 | defines the "showing" figures: a 1-based start (0 for an empty list) and an end capped at the item count; PageInfoRange and PagesAbut state what they span |
| ClassPagination.PagesAbut | src/pages/classe/hooks/use-pagination.ts:20-23 | the next page starts right after a full page ends |
| ClassPagination.Hook.constructor | src/pages/classe/hooks/use-pagination.ts:10-17 | missing inputs default to 6 per page, 0 items, 1 page and page 1 |
| ClassPagination.Hook.GoToPage | src/pages/classe/hooks/use-pagination.ts:29-33 | the page changes only to a target in [1, totalPages]; the page stays valid |
| ClassPagination.Hook.GoToNextPage | src/pages/classe/hooks/use-pagination.ts:35-39 | the page advances only below totalPages |
| ClassPagination.Hook.GoToPreviousPage | src/pages/classe/hooks/use-pagination.ts:41-45 | the page goes back only above 1 |
| ClassPagination.Hook.ChangeItemsPerPage | src/pages/classe/hooks/use-pagination.ts:47-50 | the new page size is set and the page resets to 1 |
| PaginationControls.PageWindow | src/pages/classe/components/pagination-controls.tsx:45 | exactly min(5, totalPages) links are produced |
| PaginationControls.WindowSpec | src/pages/classe/components/pagination-controls.tsx:45-56 | on an existing page the links are consecutive ascending existing pages and contain the current page |
| PaginationControls.WindowPosition | src/pages/classe/components/pagination-controls.tsx:48-56 | the window is 1..n for few pages or an early page, the last five near the end, otherwise centred on the current page |
| PaginationControls.Render | src/pages/classe/components/pagination-controls.tsx:28-104 | nothing renders iff totalPages <= 1; the ellipsis and last-page link appear iff totalPages > 5 and current < totalPages-2; Previous is inert iff on page 1 and Next iff on the last page |
| PaginationControls.RenderLinks | src/pages/classe/components/pagination-controls.tsx:40-106 | on an existing page of more than one, the ellipsis and last-page link appear exactly when the numbered window does not already show the last page, and Previous/Next are inert exactly when the page they would open does not exist |
| CourPage.SortChoiceRoundTrip | src/pages/cours/cour-page.tsx:81-88 | a sort value "field_order" built from parts without '_' splits back into that field and that order |
| CourPage.CardRoute | src/pages/cours/cour-page.tsx:185-191 | the card opens "modifier-cours/<id>" for the creator and "cours/<id>" for everyone else |
| CourPage.ShowPager | src/pages/cours/cour-page.tsx:207 | the pager shows iff the response has pagination with more than one page |
| CourPage.Page.constructor | src/pages/cours/cour-page.tsx:43-49 | the lesson hook starts on the subject id (or "") with newest-first sorting, page 1 and 6 per page |
| CourPage.Page.HandleSearch | src/pages/cours/cour-page.tsx:76-79 | the search is set and the page resets to 1; the other filters are kept |
| CourPage.Page.HandleSortChange | src/pages/cours/cour-page.tsx:81-88 | only the sort field and order change, to the two parts of the value split at '_' |
| CourPage.Page.HandleLockedToggle | src/pages/cours/cour-page.tsx:90-92 | pressing sets isLocked to true and releasing clears it |
| CourPage.Page.Previous | src/pages/cours/cour-page.tsx:213 | the page goes back by one but never below 1 |
| CourPage.Page.Next | src/pages/cours/cour-page.tsx:246-248 | the page advances by one but never above totalPages |
| CourPage.Page.LinkClick | src/pages/cours/cour-page.tsx:235 | a numbered link sets the page it shows |
| CourPage.ButtonsStayInRange | src/pages/cours/cour-page.tsx:211-251 | from an existing page, Previous and Next both land on an existing page |
| FilteredLessons.Keys | src/pages/cours/hooks/use-filtered-lessons.ts:36-45 | the parameter keys map one to one, in order |
| FilteredLessons.ParamsKeys | src/pages/cours/hooks/use-filtered-lessons.ts:38-45 | search is sent only when non-empty, isLocked whenever defined, sort and order only when set, page and limit always and last |
| FilteredLessons.ParamsValues | src/pages/cours/hooks/use-filtered-lessons.ts:38-45 | a search, isLocked, sort or order entry is present only when that filter is set and carries its value, the lock flag as "true"/"false"; the last two entries are the page and the page size |
| FilteredLessons.Hook.constructor | src/pages/cours/hooks/use-filtered-lessons.ts:13-19 | the filters start from the caller's (or none), at page 1 with page size 6 |
| FilteredLessons.Hook.QueryParams | src/pages/cours/hooks/use-filtered-lessons.ts:35-45 | the parameters appended one by one are exactly the specified list |
| FilteredLessons.Hook.Enabled | src/pages/cours/hooks/use-filtered-lessons.ts:54 | defines the query's enabled flag: the lessons are fetched only with a non-empty subject id |
| FilteredLessons.Hook.QueryString | src/pages/cours/hooks/use-filtered-lessons.ts:35-47 | the query string is the form encoding of that list |
| FilteredLessons.PageParamsRoundTrip | src/pages/cours/hooks/use-filtered-lessons.ts:44-45 | the page and the page size written with String() parse back to themselves |
| UrlParams.EncodeKept | src/pages/cours/hooks/use-filtered-lessons.ts:47 | a name or value made only of unreserved characters is sent as it is |
| UrlParams.EncodeHasNoSeparator | src/pages/cours/hooks/use-filtered-lessons.ts:47 | an encoded name or value never contains '&' or '=' |
| UrlParams.SerializeSplits | src/pages/cours/hooks/use-filtered-lessons.ts:36-47 | the serialised query splits back at '&' into its pairs, and each pair at '=' into its encoded name and value |
| FilteredLessons.ParamsOf | src/pages/cours/hooks/use-filtered-lessons.ts:36-45 | defines the query parameter list; ParamsKeys and ParamsValues state which entries it holds, in which order, with which values |
| CourPage.SortChoice | src/pages/cours/cour-page.tsx:81-88 | defines the split of a sort value at '_' into field and order; SortChoiceRoundTrip states that it takes back the two parts |
| CourPage.Links | src/pages/cours/cour-page.tsx:218-231 | defines the numbered page links as the class pager's five-link window; PaginationControls.WindowSpec states its shape |
| ChapterResume.CompletedPrefix | src/layout/cours-details-layout.tsx:39-51 | the count is the length of the longest finished prefix: every chapter before it is finished and the chapter at it is not |
| ChapterResume.TargetIn | src/layout/cours-details-layout.tsx:54-66 | any target is the route of a chapter of the list with a non-empty id, and an empty list gives no target |
| ChapterResume.ResumeEffect | src/layout/cours-details-layout.tsx:33-68 | the loop's navigation equals the specified one: none while loading, with a chapter in the address or without data, otherwise the first unfinished chapter in position order |
| ChapterResume.PrefixUnique | src/layout/cours-details-layout.tsx:41-51 | the finished prefix is fixed by its two defining facts |
| ChapterResume.ResumeSpec | src/layout/cours-details-layout.tsx:54-59 | when every chapter before position i is finished and chapter i is not, the learner goes to chapter i |
| ChapterResume.AllDoneGoesToFirst | src/layout/cours-details-layout.tsx:60-66 | when every chapter is finished, the learner goes to the first one |
| ChapterResume.ByPositionSpec | src/layout/cours-details-layout.tsx:36-37 | the chapters considered are exactly the course's, in ascending position order |
| ChapterResume.StoredFlagIgnored | src/layout/cours-details-layout.tsx:43-45 | a learner whose progress carries only the declared isCompleted flag is sent back to the finished first chapter, where the declared flag would send them to the second |
| ChapterResume.Resume | src/layout/cours-details-layout.tsx:54-66 | defines the chapter route the layout navigates to; ResumeSpec, AllDoneGoesToFirst and TargetIn state which chapter that is |
| ChapterResume.ByPosition | src/layout/cours-details-layout.tsx:36-37 | defines the chapters sorted by ascending position; ByPositionSpec states that it is a sorted permutation of the course's chapters |
| ChapterResume.DoneAsWritten | src/layout/cours-details-layout.tsx:43-45 | defines the finished test as written, which looks for the undeclared isComplete field; StoredFlagIgnored shows its consequence |
| StableSort.SortSpec | src/layout/cours-details-layout.tsx:37 | the sort by a numeric comparator yields a list ordered by the key that is a permutation of the input |
| StableSort.SortStable | src/layout/cours-details-layout.tsx:37 | the sort is stable: the elements sharing a key keep their relative input order |
| DocumentGallery.CeilDiv | src/components/course/document-gallery.tsx:72 | the page count is the least number of full pages that hold every image |
| DocumentGallery.NextPrevInPage | src/components/course/document-gallery.tsx:74-94 | inside a page, Next then Previous returns to the same image, and Next raises the shown image number by one |
| DocumentGallery.NextAcrossPage | src/components/course/document-gallery.tsx:74-83 | at the last image of a page that is not the last, Next opens image 0 of the next page; the image number then advances by exactly one if and only if the page left was full |
| DocumentGallery.DisabledArrowsStay | src/components/course/document-gallery.tsx:176-192 | an arrow shown disabled would leave the position unchanged |
| DocumentGallery.PrevDisabled | src/components/course/document-gallery.tsx:179 | defines when the previous-image arrow is disabled: first page, first image; DisabledArrowsStay and EnabledArrowsMove tie it to PrevView |
| DocumentGallery.NextDisabled | src/components/course/document-gallery.tsx:188-191 | defines when the next-image arrow is disabled: last page, last loaded image; DisabledArrowsStay and EnabledArrowsMove tie it to NextView |
| DocumentGallery.EnabledArrowsMove | src/components/course/document-gallery.tsx:176-192 | from a position inside the document, an enabled arrow always changes the position |
| DocumentGallery.Gallery.constructor | src/components/course/document-gallery.tsx:26-31 | the viewer opens on page 1, image 0, at zoom 1, with 5 images per page unless told otherwise |
| DocumentGallery.Gallery.NextImage | src/components/course/document-gallery.tsx:74-83 | the new position is the next-image rule applied to the old one; zoom resets to 1 only when images are loaded |
| DocumentGallery.Gallery.PrevImage | src/components/course/document-gallery.tsx:85-94 | the new position is the previous-image rule applied to the old one; zoom resets to 1 only when images are loaded |
| DocumentGallery.Gallery.GoToFirstPage | src/components/course/document-gallery.tsx:96-100 | the viewer shows image 0 of page 1 at zoom 1 |
| DocumentGallery.Gallery.GoToLastPage | src/components/course/document-gallery.tsx:102-106 | the viewer shows image 0 of the last page at zoom 1 |
| DocumentGallery.Gallery.PreviousPage | src/components/course/document-gallery.tsx:286-290 | the page goes back by one but never below 1, on image 0 at zoom 1 |
| DocumentGallery.Gallery.NextPage | src/components/course/document-gallery.tsx:301-305 | the page goes forward by one but never past the page count, on image 0 at zoom 1 |
| DocumentGallery.NextView | src/components/course/document-gallery.tsx:74-83 | defines the position after Next; NextPrevInPage, NextAcrossPage and the arrow lemmas state where it lands |
| DocumentGallery.PrevView | src/components/course/document-gallery.tsx:85-94 | defines the position after Previous; NextPrevInPage and the arrow lemmas state where it lands |
| DocumentGallery.TotalPages | src/components/course/document-gallery.tsx:72 | defines the page count as the total over the page size rounded up, or 0 without a preview; CeilDiv states the rounding |
| QuizOptions.OnlyCorrect | src/components/form/Quiz/questionCreator.tsx:41-47 | exactly the options carrying the chosen id are marked correct; ids, texts and the length stay |
| QuizOptions.OnlyCorrectAny | src/components/form/Quiz/questionCreator.tsx:41-47 | after choosing, some option is correct if and only if the chosen id is in the list |
| QuizOptions.WithText | src/components/form/Quiz/questionCreator.tsx:34-39 | the options with the id get the new text and every other option is unchanged |
| QuizOptions.WithoutId | src/components/form/Quiz/questionCreator.tsx:75 | the remaining options are exactly the old ones whose id differs from the removed id |
| QuizOptions.WithoutAbsentId | src/components/form/Quiz/questionCreator.tsx:75 | removing an id that is not present gives back the same list |
| QuizOptions.WithoutAppended | src/components/form/Quiz/questionCreator.tsx:49-64 | removing an option just added with a fresh id restores the list before the add |
| QuizOptions.WithoutPresentId | src/components/form/Quiz/questionCreator.tsx:75 | with distinct ids, removing a present id drops exactly one option |
| QuizOptions.FindCorrect | src/components/form/Quiz/questionCreator.tsx:73 | the result is absent exactly when no option has the id, and otherwise is the flag of the first option with that id |
| QuizOptions.PointsInput | src/components/form/Quiz/questionCreator.tsx:27-32 | a points entry is accepted if and only if parseInt reads a number above 0, and then it is that number |
| QuizOptions.PointsInputAccepts | src/components/form/Quiz/questionCreator.tsx:27-32 | every positive count typed in decimal is accepted unchanged |
| QuizOptions.FirstProblemTrimmed | src/components/form/Quiz/quizBuilder.tsx:146-162 | a quiz is submitted if and only if its trimmed title, every trimmed question text and every trimmed option text are non-empty |
| QuizOptions.FirstProblem | src/components/form/Quiz/quizBuilder.tsx:146-162 | defines the first submit check that fails, in the order title, question texts, option texts; FirstProblemTrimmed and DefaultQuestionBlocksSubmit state when a quiz passes |
| QuizOptions.DefaultQuestionBlocksSubmit | src/components/form/Quiz/quizBuilder.tsx:52-60 | a freshly added question always stops the submit for its blank text |
| QuizEditor.FirstCorrect | src/components/form/Quiz/quizEditor.tsx:35-37 | the first option becomes correct and every other option is kept |
| QuizEditor.UniqueRepair | src/components/form/Quiz/quizEditor.tsx:38-45 | as written: with some correct option every flag is kept, and with none exactly the first option becomes correct; ids and texts stay |
| QuizEditor.TypeChange | src/components/form/Quiz/quizEditor.tsx:24-52 | only the type and options change; true/false gets the fixed Vrai (correct) and Faux pair; multiple keeps the options or marks the first correct, failing only on an empty list; any other type gets the unique repair |
| QuizEditor.TypeChangeHasCorrect | src/components/form/Quiz/quizEditor.tsx:24-52 | after a type change of a question with options, or to true/false, some option is correct |
| QuizEditor.PointsChange | src/components/form/Quiz/quizEditor.tsx:54-59 | the points change if and only if the entry parses to an integer above 0, and only the points change |
| QuizEditor.OptionTextChange | src/components/form/Quiz/quizEditor.tsx:61-64 | only the options change, and only in the text of the options with that id |
| QuizEditor.Toggled | src/components/form/Quiz/quizEditor.tsx:77-80 | only the flag of the options with that id is flipped |
| QuizEditor.ToggledTwice | src/components/form/Quiz/quizEditor.tsx:77-80 | toggling the same option twice gives back the options |
| QuizEditor.CorrectOptionChange | src/components/form/Quiz/quizEditor.tsx:66-89 | a single-answer question gets exactly the chosen option correct; a multiple-answer one toggles it and is refused when no option would stay correct |
| QuizEditor.CorrectOptionChangeMultiple | src/components/form/Quiz/quizEditor.tsx:76-88 | a multiple-answer question never loses its last correct option, and a second toggle of the same option undoes the first |
| QuizEditor.AddOption | src/components/form/Quiz/quizEditor.tsx:91-113 | refused if and only if six options exist or the question is true/false; otherwise one blank incorrect option is appended |
| QuizEditor.RemoveOption | src/components/form/Quiz/quizEditor.tsx:115-138 | refused exactly for true/false questions, at two options or fewer, and when the only correct option would go with nothing left; otherwise the option goes and, when it was the only correct one, the new first option becomes correct; the rest of the question stays |
| QuizEditor.RepairedRemoval | src/components/form/Quiz/quizEditor.tsx:128-136 | defines the options left by a removal, with the new first option made correct when the only correct one went; RemoveOption and RemoveOptionKeepsCorrect state its effect |
| QuizEditor.RemoveOptionKeepsCorrect | src/components/form/Quiz/quizEditor.tsx:128-137 | with distinct ids, a question that had a correct option still has one after an accepted removal |
| QuizEditor.AddThenRemove | src/components/form/Quiz/quizEditor.tsx:91-138 | adding an option and then removing it restores the question |
| QuizEditor.UniqueKeepsSeveral | src/components/form/Quiz/quizEditor.tsx:38-45 | as written, switching a question with two correct options to single answer leaves both correct |
| QuizEditor.SingleRepair | src/components/form/Quiz/quizEditor.tsx:38-45 | the intended single-answer repair changes only correct flags; ids, texts and length stay |
| QuizEditor.SingleRepairCount | src/components/form/Quiz/quizEditor.tsx:38-45 | the intended repair leaves exactly one correct option when there was one, and none otherwise |
| QuizEditor.ToSingleCorrect | src/components/form/Quiz/quizEditor.tsx:38-45 | intended: after switching to single answer exactly one option is correct |
| QuizEditor.FirstCorrectCount | src/components/form/Quiz/quizEditor.tsx:35-37 | marking the first of options that had no correct one leaves exactly one correct |
| QuizEditor.NoneCorrectCount | src/components/form/Quiz/quizEditor.tsx:35 | options with no correct flag count zero correct |
| QuestionCreator.TypeChange | src/components/form/Quiz/questionCreator.tsx:23-25 | the question takes the new type and nothing else changes; the options are not repaired |
| QuestionCreator.PointsChange | src/components/form/Quiz/questionCreator.tsx:27-32 | the points change if and only if the entry parses to an integer above 0, and nothing else changes |
| QuestionCreator.OptionTextChange | src/components/form/Quiz/questionCreator.tsx:34-39 | the options with that id get the new text; every other option and field is unchanged |
| QuestionCreator.CorrectOptionChange | src/components/form/Quiz/questionCreator.tsx:41-47 | exactly the options with the chosen id are correct, and nothing but correct flags changes |
| QuestionCreator.AddOption | src/components/form/Quiz/questionCreator.tsx:49-64 | refused with the six-options message if and only if six options exist; otherwise one blank incorrect option is appended |
| QuestionCreator.FirstOnly | src/components/form/Quiz/questionCreator.tsx:78-83 | exactly the first option is correct; ids and texts stay |
| QuestionCreator.RemoveOption | src/components/form/Quiz/questionCreator.tsx:66-86 | refused if and only if one option is left; removing a correct option makes the first remaining one the only correct one; removing another keeps every flag |
| QuestionCreator.RemoveCorrectLeavesOne | src/components/form/Quiz/questionCreator.tsx:78-83 | after removing the correct option exactly the first remaining option is correct |
| QuestionCreator.AddThenRemove | src/components/form/Quiz/questionCreator.tsx:49-86 | adding an option and then removing it restores the question |
| QuestionForm.Initial | src/components/form/Quiz/questionForm.tsx:23-31 | without an existing question the form starts with empty texts, no options, type choix-unique and 1 point; with one it keeps its options and its non-zero points |
| QuestionForm.Validate | src/components/form/Quiz/questionForm.tsx:89-102 | a question passes if and only if its text and every option text are non-blank, and then it is saved unchanged; a blank text gives the text-required message |
| QuestionForm.ValidateTrimmed | src/components/form/Quiz/questionForm.tsx:89-96 | a question passes if and only if its trimmed text and every trimmed option text are non-empty |
| QuestionForm.Form.constructor | src/components/form/Quiz/questionForm.tsx:23-31 | the form holds the initial question |
| QuestionForm.Form.OptionTextChange | src/components/form/Quiz/questionForm.tsx:41-46 | only the options with that id get the new text |
| QuestionForm.Form.CorrectOptionChange | src/components/form/Quiz/questionForm.tsx:48-56 | exactly the options with that id become correct |
| QuestionForm.Form.AddOption | src/components/form/Quiz/questionForm.tsx:58-68 | refused with a toast if and only if six options exist, leaving the question; otherwise one blank incorrect option is appended |
| QuestionForm.Form.RemoveOption | src/components/form/Quiz/questionForm.tsx:70-87 | refused with a toast if and only if two options or fewer exist, leaving the question; otherwise the options become the removal result |
| QuestionForm.AfterRemoval | src/components/form/Quiz/questionForm.tsx:76-86 | the others stay in order: every remaining option after the first is kept whole, the first keeps its id and text, and the list is the plain filter unless a correct option went, in which case the first remaining one is correct |
| QuestionForm.Form.Submit | src/components/form/Quiz/questionForm.tsx:89-102 | the outcome is exactly the validation result of the current question |
| QuizBuilder.TotalScoreAtLeastCount | src/components/form/Quiz/quizBuilder.tsx:165 | with no negative points the total score is at least the number of questions, since a question without points counts one |
| QuizBuilder.Threshold | src/components/form/Quiz/quizBuilder.tsx:166 | the threshold is the passing percentage of the total rounded to the nearest integer, halves upward |
| QuizBuilder.ToPayloadQuestion | src/components/form/Quiz/quizBuilder.tsx:176-184 | text, explanation, points and every option's text and flag are copied in order; isboolean is set if and only if the type is "boolean" |
| QuizBuilder.BuildPayload | src/components/form/Quiz/quizBuilder.tsx:168-185 | every question is sent in order; score is the total score, successRate its threshold, attempts and time come from the settings, and the instructor is never empty |
| QuizBuilder.Duplicate | src/components/form/Quiz/quizBuilder.tsx:75-84 | the copy has a fresh id, the text followed by " (copie)", the same explanation, type, points and option texts and flags, and option ids rebuilt from the stamp and the old id's last piece |
| QuizBuilder.Builder.constructor | src/components/form/Quiz/quizBuilder.tsx:22-44 | the builder starts on question 0 of one blank single-choice question with one correct option, and the default settings |
| QuizBuilder.Builder.AddQuestion | src/components/form/Quiz/quizBuilder.tsx:52-68 | a default question is appended and the new index equals the old length |
| QuizBuilder.Builder.DuplicateQuestion | src/components/form/Quiz/quizBuilder.tsx:71-95 | the copy is inserted directly after the current question, every other question keeps its order, and the copy becomes current |
| QuizBuilder.Builder.RemoveQuestion | src/components/form/Quiz/quizBuilder.tsx:97-115 | refused if and only if one question is left; otherwise exactly the current question goes and the index becomes max(0, n - 2) when it was the last |
| QuizBuilder.Builder.UpdateQuestion | src/components/form/Quiz/quizBuilder.tsx:117-122 | only the question at the current index is replaced |
| QuizBuilder.Builder.NavigateToQuestion | src/components/form/Quiz/quizBuilder.tsx:124-128 | the index changes if and only if the target is in [0, n) |
| QuizBuilder.Builder.Submit | src/components/form/Quiz/quizBuilder.tsx:143-187 | refused with the matching message exactly when the title, a question text or an option text is blank, in that order; otherwise the payload is sent |
| QuizBuilder.DuplicateThenRemove | src/components/form/Quiz/quizBuilder.tsx:71-115 | removing the inserted copy gives back the questions as they were |
| QuizBuilder.AddQuestionScore | src/components/form/Quiz/quizBuilder.tsx:52-68 | adding a default question raises the total score by exactly one |
| QuizBuilder.TrueFalseNotFlagged | src/components/form/Quiz/quizBuilder.tsx:181 | as written, a question switched to true/false by the editor is sent with isboolean false |
| QuizBuilder.TrueFalseFlagged | src/components/form/Quiz/quizBuilder.tsx:181 | intended: after a type change the flag is set if and only if the new type is true/false |
| QuizBuilder.ScoreOf | src/components/form/Quiz/quizBuilder.tsx:165 | defines a question's score, where zero points count as one; TotalScoreAtLeastCount and AddQuestionScore rely on it |
| QuizBuilder.TotalScore | src/components/form/Quiz/quizBuilder.tsx:165 | defines the sum of the scores; TotalScoreAtLeastCount and AddQuestionScore state its bounds and growth |
| QuizBuilder.Instructor | src/components/form/Quiz/quizBuilder.tsx:171 | defines the instructor sent with the quiz, "UNKNOWN_INSTRUCTOR" without a user id; BuildPayload states that the payload carries it |
| QuizBuilder.IndexAfterRemoval | src/components/form/Quiz/quizBuilder.tsx:112-114 | removing from a list of two or more questions leaves a valid index of the shorter list, and an index before the last is kept |
| QuizParametre.FindIndex | src/components/form/Quiz/quizParametre.tsx:114 | the result is -1 exactly when no question has the id, and otherwise the first index with that id |
| QuizParametre.WithoutQuestion | src/components/form/Quiz/quizParametre.tsx:116-119 | the remaining questions are exactly those whose id differs from the removed one |
| QuizParametre.WithoutQuestionAppend | src/components/form/Quiz/quizParametre.tsx:116-119 | removing by id from two lists joined is removing from each and joining, so the remaining questions keep their order whatever the ids |
| QuizParametre.WithoutAbsentQuestion | src/components/form/Quiz/quizParametre.tsx:116-119 | removing an id that is not present leaves the list unchanged |
| QuizParametre.WithoutQuestionAt | src/components/form/Quiz/quizParametre.tsx:116-119 | with distinct ids, removing by id deletes exactly that position and keeps the others in order |
| QuizParametre.Form.constructor | src/components/form/Quiz/quizParametre.tsx:40-63 | the form starts blank, level débutant, 70 percent, 3 attempts, 30 minutes, one default question, index 0 |
| QuizParametre.Form.NumberInputChange | src/components/form/Quiz/quizParametre.tsx:70-76 | the named number field takes the parsed value only when the input parses as an integer; the other number fields, title, description, level, questions and index are kept |
| QuizParametre.Form.QuestionChange | src/components/form/Quiz/quizParametre.tsx:82-87 | only the questions with the given id are replaced; the length, the other questions, the index and every setting (title, description, level, passing score, attempts, time) stay |
| QuizParametre.Form.AddQuestion | src/components/form/Quiz/quizParametre.tsx:89-106 | a default question is appended and selected at the old length; every setting stays |
| QuizParametre.Form.RemoveQuestion | src/components/form/Quiz/quizParametre.tsx:108-126 | refused if and only if one question is left; otherwise the question with that id goes and the index is moved back when it was last or after the removed question; every setting stays |
| QuizParametre.Form.NavigateToQuestion | src/components/form/Quiz/quizParametre.tsx:128-132 | the index changes if and only if the target is in [0, n); the questions and every setting stay |
| QuizParametre.Form.Submit | src/components/form/Quiz/quizParametre.tsx:134-160 | refused with the matching message exactly when the title, a question text or an option text is blank, in that order; otherwise the success message |
| QuizParametre.RemoveKeepsSelection | src/components/form/Quiz/quizParametre.tsx:108-126 | with distinct ids, removing another question keeps the same question selected, removing the selected one selects its successor, and the index stays in range |
| QuizParametre.SelectionAfterSplice | src/components/form/Quiz/quizParametre.tsx:108-126 | after deleting position k the adjusted index is in range and points at the same question, or at the successor when the selected one was deleted |
| QuizParametre.IndexAfterRemoval | src/components/form/Quiz/quizParametre.tsx:122-126 | defines the index selected after a removal; SelectionAfterSplice and RemoveKeepsSelection state which question it points at |
| QcmForm.Edited | src/components/form/Quiz/qcmForm.tsx:39-45 | every question sharing the original's id becomes the updated one and every other question stays |
| QcmForm.SpliceStart | src/components/form/Quiz/qcmForm.tsx:80-81 | a splice start is always resolved to a position within the list |
| QcmForm.SwappedSpec | src/components/form/Quiz/qcmForm.tsx:69-84 | exchanging neighbours puts each at the other's place, leaves every other position and keeps the same questions |
| QcmForm.ReinsertNeighbour | src/components/form/Quiz/qcmForm.tsx:80-81 | taking a question out and putting it back one place away is a swap of neighbours and keeps the same questions |
| QcmForm.MovedSwaps | src/components/form/Quiz/qcmForm.tsx:69-84 | moving a present question that can move swaps it with its neighbour in that direction; all else stays and the questions are a permutation of the old ones |
| QcmForm.MovedAtEndsIsNoop | src/components/form/Quiz/qcmForm.tsx:71-77 | moving the first question up, or with distinct ids the last one down, leaves the list unchanged |
| QcmForm.Form.constructor | src/components/form/Quiz/qcmForm.tsx:19-38 | the form starts with an empty title, the details tab, the form hidden and one default question |
| QcmForm.Form.EditQuestion | src/components/form/Quiz/qcmForm.tsx:39-45 | only the questions sharing the original's id are replaced; title, form visibility and tab stay |
| QcmForm.Form.AddQuestion | src/components/form/Quiz/qcmForm.tsx:54-60 | the question is appended with its id set to "1" and the question form is shown; title and tab stay |
| QcmForm.Form.RemoveQuestion | src/components/form/Quiz/qcmForm.tsx:62-67 | every question with that id is dropped and the rest keep their order (WithoutQuestionAppend); title, form visibility and tab stay |
| QcmForm.Form.MoveQuestion | src/components/form/Quiz/qcmForm.tsx:69-84 | the questions become the moved list; title, form visibility and tab stay |
| QcmForm.Form.Submit | src/components/form/Quiz/qcmForm.tsx:86-112 | a blank title is refused first, then an empty list, which also opens the questions tab; otherwise the updated or created message; the questions stay |
| QcmForm.RemovingOneRemovesBoth | src/components/form/Quiz/qcmForm.tsx:57 | as written, two added questions share the id "1", so removing one removes both |
| QcmForm.RemoveAppended | src/components/form/Quiz/qcmForm.tsx:62-67 | a question appended with the removed id leaves the removal result unchanged |
| QcmForm.FreshIdRemovesOnlyIt | src/components/form/Quiz/qcmForm.tsx:54-67 | intended: an added question with a fresh id is found at the end and removing it restores the list |
| QcmForm.MovedUndefinedOnlyEmptyUp | src/components/form/Quiz/qcmForm.tsx:69-84 | the move leaves the question list well formed except for an "up" on an empty list, the one case where the splices insert `undefined` |
| QcmForm.Moved | src/components/form/Quiz/qcmForm.tsx:69-84 | defines the list after moving a question up or down; MovedSwaps and MovedAtEndsIsNoop state its effect |
| QuestionList.Render | src/components/form/Quiz/questionlist.tsx:54-116 | while a question is edited only its edit form shows; otherwise one row per question in order, numbered from 1, with "up" disabled exactly on the first |
| QuestionList.List.constructor | src/components/form/Quiz/questionlist.tsx:33-34 | the list starts with every item closed and nothing being edited |
| QuestionList.List.ToggleItem | src/components/form/Quiz/questionlist.tsx:36-41 | the item's open state flips and every other item keeps its state |
| QuestionList.List.Edit | src/components/form/Quiz/questionlist.tsx:43-45 | the list enters edit mode on that question |
| QuestionList.List.SaveEdit | src/components/form/Quiz/questionlist.tsx:47-52 | when a question is edited the original and the update are reported and edit mode ends; otherwise nothing is reported |
| QuestionList.List.CancelEdit | src/components/form/Quiz/questionlist.tsx:59 | edit mode ends and the open items stay |
| QuestionList.ToggleTwice | src/components/form/Quiz/questionlist.tsx:36-41 | toggling an item twice restores every item's open state |
| QuizList.FilteredQcmSpec | src/components/form/Quiz/quizlist.tsx:29-35 | an item is shown if and only if it is in the list, its title or description contains the search ignoring case, and the category is "tous" or its own |
| QuizList.FilteredQcm | src/components/form/Quiz/quizlist.tsx:29-35 | defines the shown list as the matching items in list order; FilteredQcmSpec and NoFilterShowsAll state which items it holds |
| QuizList.NoFilterShowsAll | src/components/form/Quiz/quizlist.tsx:25-35 | the initial empty search with "tous" shows the whole list in order |
| QuizList.WithoutId | src/components/form/Quiz/quizlist.tsx:38 | the remaining items are exactly those whose id differs |
| QuizList.Find | src/components/form/Quiz/quizlist.tsx:42 | nothing is found exactly when no item has the id; a found item has that id and is the first item with it |
| QuizList.Copy | src/components/form/Quiz/quizlist.tsx:44-49 | the copy differs only in a new id, the title followed by " (copie)" and the new creation date |
| QuizList.Page.constructor | src/components/form/Quiz/quizlist.tsx:25-27 | the page starts on the given items, an empty search and the "tous" category |
| QuizList.Page.DeleteQcm | src/components/form/Quiz/quizlist.tsx:37-39 | the items with that id are removed; search and category stay |
| QuizList.Page.DuplicateQcm | src/components/form/Quiz/quizlist.tsx:41-52 | an unknown id changes nothing; otherwise the copy of the first item with that id is appended |
| QuizList.DuplicateThenDelete | src/components/form/Quiz/quizlist.tsx:37-52 | deleting a duplicate that got a fresh id gives back the list |
| QuizPreview.Preview.constructor | src/components/form/Quiz/quizprevious.tsx:12-13 | the preview starts with nothing selected and no feedback |
| QuizPreview.Preview.OptionSelect | src/components/form/Quiz/quizprevious.tsx:15-19 | the selection changes to the option unless the feedback is shown, in which case nothing changes |
| QuizPreview.Preview.Verify | src/components/form/Quiz/quizprevious.tsx:21-23 | the feedback is shown and the selection stays |
| QuizPreview.Preview.Reset | src/components/form/Quiz/quizprevious.tsx:25-28 | the selection is cleared and the feedback hidden |
| QuizPreview.CorrectIffChosenCorrect | src/components/form/Quiz/quizprevious.tsx:30 | with distinct option ids, the answer is judged by exactly the chosen option's own flag |
| QuizPreview.Preview.IsCorrect | src/components/form/Quiz/quizprevious.tsx:30 | defines the verdict: an option is selected and the first option with its id is correct; CorrectIffChosenCorrect states that this is the chosen option's own flag |
| QuizPreview.Preview.VerifyDisabled | src/components/form/Quiz/quizprevious.tsx:125 | defines when the verify button is disabled: while no option is selected |
| LegacyQuizBuilder.IndexIn | src/components/form/QuizBuilder.tsx:58 | the position found holds the value and no earlier position does |
| LegacyQuizBuilder.RemovedAtMembers | src/components/form/QuizBuilder.tsx:57-63 | removing the found correct index drops that index and keeps every other one |
| LegacyQuizBuilder.RemovedAtDistinct | src/components/form/QuizBuilder.tsx:57-63 | removing the found correct index keeps the list free of duplicates |
| LegacyQuizBuilder.ToggledSpec | src/components/form/QuizBuilder.tsx:57-63 | on a list without duplicates the toggled index is present afterwards if and only if it was absent, every other index keeps its membership, and the list stays free of duplicates |
| LegacyQuizBuilder.Toggled | src/components/form/QuizBuilder.tsx:57-63 | defines the multiple-choice toggle: remove the first occurrence, or append; ToggledSpec and ToggledTwice state its effect |
| LegacyQuizBuilder.ToggledTwice | src/components/form/QuizBuilder.tsx:57-63 | toggling the same index twice restores the set of correct answers |
| LegacyQuizBuilder.Reindexed | src/components/form/QuizBuilder.tsx:72-74 | the new correct answers are exactly the old ones other than the deleted index, each above it moved down by one |
| LegacyQuizBuilder.Shift | src/components/form/QuizBuilder.tsx:74 | defines the index of a kept answer after an option is deleted; Reindexed and DeleteOptionKeepsAnswers state that each answer still points at the same option text |
| LegacyQuizBuilder.RemoveAt | src/components/form/QuizBuilder.tsx:70 | deleting an option shortens the options by one |
| LegacyQuizBuilder.DeleteOptionKeepsAnswers | src/components/form/QuizBuilder.tsx:68-75 | after deleting an option every remaining correct answer is in range and points at the same option text as before |
| LegacyQuizBuilder.ScoreEntry | src/components/form/QuizBuilder.tsx:153 | the score is never 0: a parsed non-zero integer is kept, anything else becomes 1 |
| LegacyQuizBuilder.Builder.constructor | src/components/form/QuizBuilder.tsx:30 | the builder starts with no question |
| LegacyQuizBuilder.Builder.CorrectAnswerChange | src/components/form/QuizBuilder.tsx:50-66 | only that question changes: a single-answer question gets exactly that answer, a multiple-answer one toggles it |
| LegacyQuizBuilder.Builder.DeleteOption | src/components/form/QuizBuilder.tsx:68-75 | only that question changes: the option goes and the correct answers are re-based |
| LegacyQuizBuilder.Builder.AddOption | src/components/form/QuizBuilder.tsx:78-81 | only that question changes, by one empty option at the end |
| LegacyQuizBuilder.Builder.DeleteQuestion | src/components/form/QuizBuilder.tsx:83-87 | exactly the question at that index is removed |
| LegacyQuizBuilder.Builder.AddQuestion | src/components/form/QuizBuilder.tsx:89-103 | a blank single-answer question with one empty option, no correct answer and score 0 is appended |
| LegacyQuizBuilder.Builder.TypeChange | src/components/form/QuizBuilder.tsx:105-109 | only that question's type changes; its correct answers are kept |
| LegacyQuizBuilder.Builder.ScoreChange | src/components/form/QuizBuilder.tsx:33-40 | only that question's score changes, to the parsed entry, and it is never 0 |
| CourseAccess.Available | src/components/shared-course-access-popup.tsx:50-54 | a class is available if and only if it is in the list, not selected by id, and its name contains the search ignoring case |
| CourseAccess.SelectedView | src/components/shared-course-access-popup.tsx:57-59 | a selected class is shown if and only if its name contains the second search ignoring case |
| CourseAccess.AvailableDisjoint | src/components/shared-course-access-popup.tsx:50-59 | no class id appears in both lists |
| CourseAccess.WithoutId | src/components/shared-course-access-popup.tsx:67 | the selection keeps exactly the entries with another id, so the removed id is no longer selected |
| CourseAccess.Ids | src/components/shared-course-access-popup.tsx:237 | the ids of the selection, in order |
| CourseAccess.SaveRouteRoundTrip | src/components/shared-course-access-popup.tsx:231-239 | the save route carries a single classes parameter whose value splits back at ',' into the selected ids in order when no id holds a comma, and into one empty id when nothing is selected |
| CourseAccess.SaveRouteEmpty | src/components/shared-course-access-popup.tsx:231-239 | saving with nothing selected is allowed and opens "ajouter-cours?classes=", whose value splits back to one empty id |
| CourseAccess.Popup.constructor | src/components/shared-course-access-popup.tsx:40-42 | the dialog opens with nothing selected and both searches empty |
| CourseAccess.Popup.AddToSelection | src/components/shared-course-access-popup.tsx:62-64 | the class is appended to the selection; the searches stay |
| CourseAccess.Popup.RemoveFromSelection | src/components/shared-course-access-popup.tsx:66-68 | every entry with that id leaves the selection and the rest keep their order |
| CourseAccess.Popup.SelectAll | src/components/shared-course-access-popup.tsx:71-73 | the selection becomes the whole class list |
| CourseAccess.Popup.DeselectAll | src/components/shared-course-access-popup.tsx:76-78 | the selection becomes empty |
| CourseAccess.Popup.Save | src/components/shared-course-access-popup.tsx:231-240 | the route opened is the course form with the selected ids |
| CourseAccess.AllSelectedLeavesNothing | src/components/shared-course-access-popup.tsx:50-54 | when every class is selected, none is available |
| CourseAccess.SelectAllLeavesNothing | src/components/shared-course-access-popup.tsx:50-54 | after select-all nothing is left to add |
| CourseAccess.RemovedIsAvailable | src/components/shared-course-access-popup.tsx:50-54 | a removed class whose name matches the search is available again |
| CourseAccess.SaveRoute | src/components/shared-course-access-popup.tsx:231-239 | defines the route Enregistrer opens; SaveRouteRoundTrip and SaveRouteEmpty state what it carries |
| ConferenceList.TypeTextSpec | src/pages/video-conferance/component/fake-data.tsx:198-211 | the generic label is shown if and only if the type is none of the four known ones, and the four known types have distinct labels |
| ConferenceList.TypeText | src/pages/video-conferance/component/fake-data.tsx:198-211 | defines the type label of a conference; TypeTextSpec states which types get the generic label and that the known labels are distinct |
| ConferenceList.Filtered | src/pages/video-conferance/component/fake-data.tsx:255-271 | a conference is kept if and only if it matches the search in title or description ignoring case, the type filter, the "mine" filter and the "recorded" filter |
| ConferenceList.WithStatus | src/pages/video-conferance/component/fake-data.tsx:276-278 | a tab holds exactly the filtered conferences with its status |
| ConferenceList.HostedBy | src/pages/video-conferance/component/fake-data.tsx:279 | the "mine" tab holds exactly the filtered conferences hosted by the current user |
| ConferenceList.StatusPartition | src/pages/video-conferance/component/fake-data.tsx:276-278 | the three status lists together hold every conference exactly once |
| ConferenceList.TabsPartitionFiltered | src/pages/video-conferance/component/fake-data.tsx:255-278 | the upcoming, live and past tabs are pairwise disjoint and together show every filtered conference once |
| ConferenceList.OnlyMineIsMine | src/pages/video-conferance/component/fake-data.tsx:267-279 | with the "only mine" filter on, the "mine" tab is the whole filtered list |
| ConferenceList.AllHostedIsIdentity | src/pages/video-conferance/component/fake-data.tsx:279 | a list hosted entirely by one user is kept whole by that user's tab |
| ConferenceList.InitialFiltersOnlySearch | src/pages/video-conferance/component/fake-data.tsx:249-253 | with the initial filters a conference is kept if and only if it matches the search |
| ConferenceList.Kept | src/pages/video-conferance/component/fake-data.tsx:255-271 | defines the filter test on one conference; Filtered states that the filtered list holds exactly the conferences that pass it |
| ConferenceList.Upcoming | src/pages/video-conferance/component/fake-data.tsx:276 | defines the upcoming tab; WithStatus and TabsPartitionFiltered state what it holds |
| ConferenceList.LiveNow | src/pages/video-conferance/component/fake-data.tsx:277 | defines the live tab; WithStatus and TabsPartitionFiltered state what it holds |
| ConferenceList.Past | src/pages/video-conferance/component/fake-data.tsx:278 | defines the past tab; WithStatus and TabsPartitionFiltered state what it holds |
| ConferenceList.Mine | src/pages/video-conferance/component/fake-data.tsx:279 | defines the "mine" tab; HostedBy and OnlyMineIsMine state what it holds |
| MeetSchema.Parse | src/pages/video-conferance/component/schema.ts:3-10 | a value passes if and only if it is an object whose name is a string of at least one letter, digit, '_' or '-' and whose users are an array of at least one string; what passes is well formed |
| MeetSchema.RoundTrip | src/pages/video-conferance/component/schema.ts:4-10 | a form value passes the schema unchanged if and only if it is well formed |
| MeetSchema.SpaceInNameRejected | src/pages/video-conferance/component/schema.ts:3-8 | a meeting name with a space is refused |
| AddConference.Choices | src/pages/video-conferance/component/ajouter-conferance.tsx:126-130 | one selector option per class, in order, labelled by its name, valued by its id and carrying its students |
| AddConference.StudentId | src/pages/video-conferance/component/ajouter-conferance.tsx:118-121 | a student contributes an id if and only if its _id is a string |
| AddConference.IdsOf | src/pages/video-conferance/component/ajouter-conferance.tsx:113-121 | a class contributes at most one id per student, each the string _id of one of its students, and every string _id is among them; when every student has a string _id they are all kept, in order |
| AddConference.IdsOfAppend | src/pages/video-conferance/component/ajouter-conferance.tsx:113-121 | collecting the ids of two student lists joined is collecting each and joining, so the ids keep the students' order |
| AddConference.SelectedIdsAppend | src/pages/video-conferance/component/ajouter-conferance.tsx:112-121 | the ids of entries picked in two groups are the first group's ids followed by the second's |
| AddConference.IdsComeFromStudents | src/pages/video-conferance/component/ajouter-conferance.tsx:112-121 | every collected id is the string _id of one of the picked classes' students |
| AddConference.StringIdsAllKept | src/pages/video-conferance/component/ajouter-conferance.tsx:113-121 | in any list, mixed or not, a student with a string _id contributes exactly that id at its own place, and any other student contributes nothing |
| AddConference.Dialog.constructor | src/pages/video-conferance/component/ajouter-conferance.tsx:37-52 | the dialog starts with no class picked and a form with an empty name and no users |
| AddConference.Dialog.SelectorChange | src/pages/video-conferance/component/ajouter-conferance.tsx:110-123 | the picked classes become the selection and the form's users become the collected student ids; the other form fields stay |
| AddConference.DefaultsRejected | src/pages/video-conferance/component/ajouter-conferance.tsx:46-52 | the dialog's default values do not pass the meeting schema |
| AddConference.UsersFieldReadsBack | src/pages/video-conferance/component/ajouter-conferance.tsx:122 | the users field written by the selector reads back through the schema's string array as the collected ids |
| ChunkedUpload.TotalChunks | src/components/form/cours/upload-files.tsx:71 | the chunk count is the least number of 20 MiB chunks that cover the file |
| ChunkedUpload.ChunkPlan | src/components/form/cours/upload-files.tsx:71-78 | there are no chunks exactly for an empty file; the chunks are non-empty, at most 20 MiB, contiguous, and the last ends at the file size |
| ChunkedUpload.AttemptChunk | src/components/form/cours/upload-files.tsx:88-129 | one try sends at most one post of its chunk; with a name known after chunk 0 it succeeds exactly when axios resolves the post, that is on a 2xx answer, which for chunk 0 must also carry a non-empty file name; an answer outside 2xx is a failed try with axios's "Request failed with status code" error and keeps the name; the try is cancelled exactly when the request sent is cancelled; after chunk 0 the file name is kept |
| ChunkedUpload.UploadFileInChunks | src/components/form/cours/upload-files.tsx:66-148 | the loop's result and the requests it sends are exactly those of the recursive definition of the upload, where a chunk post answered outside 2xx is retried like a thrown error and a combine request answered outside 2xx fails with axios's status error |
| ChunkedUpload.TryChunkSegment | src/components/form/cours/upload-files.tsx:87-130 | a retry loop appends at most three posts, all of its own chunk |
| ChunkedUpload.TryChunkPrefix | src/components/form/cours/upload-files.tsx:87-130 | a retry loop keeps the requests already sent and appends at most one post per remaining try |
| ChunkedUpload.TryChunkPosts | src/components/form/cours/upload-files.tsx:88-111 | every request a retry loop appends is a post of its own chunk, flagged as the first exactly for chunk 0 |
| ChunkedUpload.AppendSegment | src/components/form/cours/upload-files.tsx:75-131 | appending one chunk's posts to an ordered log keeps it ordered and within three tries per chunk |
| ChunkedUpload.ChunksOrdered | src/components/form/cours/upload-files.tsx:75-141 | from any chunk on, requests go out in chunk order, each chunk at most three times, the combine request last |
| ChunkedUpload.UploadOrdered | src/components/form/cours/upload-files.tsx:66-148 | a whole upload sends requests in chunk order, each chunk at most three times, and the combine request last |
| ChunkedUpload.EmptyFileFails | src/components/form/cours/upload-files.tsx:71-135 | a zero-byte file sends nothing and fails because no file name is available for finalization |
| ChunkedUpload.TryChunkCancel | src/components/form/cours/upload-files.tsx:118-121 | in a retry loop no request follows a cancelled one, and a cancelled last request ends the loop with "Upload canceled" |
| ChunkedUpload.ChunksCancel | src/components/form/cours/upload-files.tsx:75-141 | from any chunk on, no request follows a cancelled one, and the upload then fails with the cancellation error |
| ChunkedUpload.ChunksNoEarlyCancel | src/components/form/cours/upload-files.tsx:75-141 | from any chunk on, only the last request sent may have been cancelled |
| ChunkedUpload.ChunksCancelError | src/components/form/cours/upload-files.tsx:75-141 | from any chunk on, a cancelled last request makes the upload fail with "Upload canceled" for a chunk post and with the request's cancellation error for the combine request |
| ChunkedUpload.CancelStopsUpload | src/components/form/cours/upload-files.tsx:66-148 | no request is sent after a cancelled one, and a cancelled upload fails with "Upload canceled", or with the request's own cancellation error at the combine step |
| ChunkedUpload.TryChunkDone | src/components/form/cours/upload-files.tsx:87-130 | a successful retry loop ends with a post of its chunk answered with a 2xx status and a non-empty name, which for chunk 0 is the server's and after chunk 0 is unchanged |
| ChunkedUpload.TryChunkAnswered | src/components/form/cours/upload-files.tsx:87-130 | a successful retry loop ends with a post of its chunk that the server answered with a 2xx status, and holds a non-empty name |
| ChunkedUpload.TryChunkFirstName | src/components/form/cours/upload-files.tsx:96-103 | a successful retry loop of chunk 0 holds the name the server returned for its last post |
| ChunkedUpload.TryChunkKeepsName | src/components/form/cours/upload-files.tsx:104-111 | a successful retry loop after chunk 0 keeps the file name it was given |
| ChunkedUpload.TryChunkSameRequest | src/components/form/cours/upload-files.tsx:88-111 | after chunk 0, with a known name, every retry sends the same post carrying that name |
| ChunkedUpload.FinalizeSucceeds | src/components/form/cours/upload-files.tsx:133-147 | a successful combine step is the last request, carries the full chunk count, got status 200, and keeps what the chunks established |
| ChunkedUpload.StepAnswered | src/components/form/cours/upload-files.tsx:87-130 | after a successful retry loop every chunk up to it has a post answered with a 2xx status |
| ChunkedUpload.StepName | src/components/form/cours/upload-files.tsx:96-103 | after a successful retry loop the file name held is one the server gave for chunk 0 |
| ChunkedUpload.StepCarry | src/components/form/cours/upload-files.tsx:93 | after a successful retry loop every later-chunk post carries the file name held |
| ChunkedUpload.ChunkStepKeepsInv | src/components/form/cours/upload-files.tsx:75-131 | one successful retry loop carries the success invariant from a chunk to the next |
| ChunkedUpload.ChunksSucceed | src/components/form/cours/upload-files.tsx:75-147 | from any chunk on, a successful upload got a 2xx answer for a post of every chunk and ended with a combine request answered 200 under the server's name |
| ChunkedUpload.UploadSucceeds | src/components/form/cours/upload-files.tsx:66-148 | a successful upload got a 2xx answer for a post of every chunk, ended with a combine request for all chunks that got status 200, and returns the non-empty name the server gave in a 2xx answer for chunk 0 and every later chunk carried |
| ChunkedUpload.ServerErrorsAbortUpload | src/components/form/cours/upload-files.tsx:87-126 | when the server answers the first three posts of a non-empty file outside 2xx, the first chunk is posted exactly three times with no name and the upload fails with axios's error for the third status, sending nothing else |
| ChunkedUpload.RejectedTry | src/components/form/cours/upload-files.tsx:96-103 | a try of chunk 0 answered outside 2xx posts once and fails with axios's status error, keeping no name |
| ChunkedUpload.ChunksNameNonEmpty | src/components/form/cours/upload-files.tsx:133-147 | a returned file name is never empty |
| ChunkedUpload.WithUploaded | src/components/form/cours/upload-files.tsx:186-196 | the chapter's materials, or none when unset, are kept in order and one entry for the uploaded file is appended |
| ChunkedUpload.TryChunkCanceledPost | src/components/form/cours/upload-files.tsx:118-121 | a retry loop whose last new request was cancelled stops with "Upload canceled", and that request is a chunk post |
| ChunkedUpload.DoneKeepsUncanceled | src/components/form/cours/upload-files.tsx:87-130 | a retry loop that ends in success adds no cancelled request |
| ChunkedUpload.StoppedCanceled | src/components/form/cours/upload-files.tsx:75-141 | an upload stopped inside a chunk's retry loop by a cancelled post fails with "Upload canceled" |
| ChunkedUpload.FinalizeCanceled | src/components/form/cours/upload-files.tsx:133-147 | a cancelled combine request is the last request, and the upload fails with the cancellation error |
| ChunkedUpload.Upload | src/components/form/cours/upload-files.tsx:66-148 | defines a whole upload's result and requests, a non-2xx answer counting as a rejected request; UploadOrdered, UploadSucceeds, ServerErrorsAbortUpload and ChunksCancel state its properties |
| ChunkedUpload.TryChunk | src/components/form/cours/upload-files.tsx:87-130 | defines the retry loop of one chunk, which retries thrown errors and answers outside 2xx alike; the TryChunk lemmas, RejectedTry and ServerErrorsAbortUpload state its bounds, its requests and its outcomes |
| ChunkedUpload.Finalize | src/components/form/cours/upload-files.tsx:133-147 | defines the combine step: an answer outside 2xx fails with axios's status error, a 2xx other than 200 with "Failed to finalize chunked upload"; FinalizeSucceeds and FinalizeCanceled state its outcomes |
| ChunkedUpload.ChunkName | src/components/form/cours/upload-files.tsx:72-79 | the chunk file name is "chunk." followed by the text after the last '.', which holds no '.', and is "chunk." + name for a name without a '.' |
| WebSocketService.RemoveFirst | src/services/web-socket-service.ts:95-100 | an absent handler leaves the list; a present one loses exactly one occurrence |
| WebSocketService.SubscribeThenUnsubscribe | src/services/web-socket-service.ts:87-100 | registering a new handler and calling its unsubscribe function gives the list back |
| WebSocketService.UnsubscribeTwice | src/services/web-socket-service.ts:95-100 | for a handler registered at most once, a second unsubscribe changes nothing |
| WebSocketService.ReconnectBudget | src/services/web-socket-service.ts:58-68 | without a successful open in between, closings schedule reconnections only until five attempts are used |
| WebSocketService.ReconnectsScheduled | src/services/web-socket-service.ts:58-68 | defines the number of reconnections that a run of closings schedules; ReconnectBudget states that it never exceeds the five-attempt budget |
| WebSocketService.Service.constructor | src/services/web-socket-service.ts:10-18 | the service starts with no socket, no handler, no attempt, no pending connection and an empty url |
| WebSocketService.Service.Connect | src/services/web-socket-service.ts:20-56 | the url is stored; a pending connection is returned as it is; otherwise a new socket starts connecting under a new promise |
| WebSocketService.Service.Opened | src/services/web-socket-service.ts:31-35 | an open socket resets the reconnection count |
| WebSocketService.Service.HandleDisconnection | src/services/web-socket-service.ts:58-68 | the pending connection is forgotten and a reconnection is scheduled, counting one attempt, if and only if fewer than five attempts were made |
| WebSocketService.Service.HandleMessage | src/services/web-socket-service.ts:70-85 | unparsable data calls nothing; otherwise every handler of the message's type is called once, in registration order |
| WebSocketService.Service.On | src/services/web-socket-service.ts:87-93 | the handler is appended to its type's list, which is created when missing |
| WebSocketService.Service.Unsubscribe | src/services/web-socket-service.ts:95-100 | the first occurrence of the handler leaves its type's list |
| WebSocketService.Service.Send | src/services/web-socket-service.ts:103-109 | refused with "WebSocket is not connected" if and only if the socket is not open; otherwise the message is sent |
| WebSocketService.Service.CreateMeeting | src/services/web-socket-service.ts:111-116 | a create_meeting message with the title and participants is sent exactly when the socket is open |
| WebSocketService.Service.Disconnect | src/services/web-socket-service.ts:118-125 | the socket and pending connection are dropped and the reconnection count is reset |
| WebSocketService.CloseAfterDisconnect | src/services/web-socket-service.ts:46-48 | as written, the close event that follows disconnect() still runs the disconnection handler, which schedules a reconnection with the count reset to one attempt |
| WebSocketService.MeetingRequest | src/services/web-socket-service.ts:111-116 | defines the create_meeting message with the title and the participants; Service.CreateMeeting states when it is sent |
| RetryQueue.Queue.constructor | src/lib/retry-queue.ts:3 | the queue starts empty |
| RetryQueue.Queue.Enqueue | src/lib/retry-queue.ts:5-7 | the callback is appended at the end |
| RetryQueue.Queue.Flush | src/lib/retry-queue.ts:9-14 | every queued callback runs once, oldest first, and the queue is then empty |
| RetryQueue.FlushTwice | src/lib/retry-queue.ts:3-14 | example (the fact for every queue is Queue.Flush's ensures): three queued callbacks run in queueing order, and a second flush runs nothing |
| UpdateBody.TrimEach | src/lib/utils.ts:11 | each piece is trimmed, in order |
| UpdateBody.NonEmpty | src/lib/utils.ts:12 | exactly the non-empty pieces are kept |
| UpdateBody.NonEmptyAppend | src/lib/utils.ts:12 | filtering two lists joined is filtering each and joining, so the kept pieces keep their order |
| UpdateBody.TrimInside | src/lib/utils.ts:11 | trimming adds no character |
| UpdateBody.ItemsAreClean | src/lib/utils.ts:8-13 | every item shown is non-empty, has no white space at either end and holds no '-' |
| UpdateBody.JoinBlank | src/lib/utils.ts:10 | if the joined text is blank, every piece is blank |
| UpdateBody.BlankBodyHasNoItems | src/lib/utils.ts:8-13 | a body of white space alone, the empty body included, shows no item |
| UpdateBody.NonEmptyDropsAll | src/lib/utils.ts:12 | a list of empty pieces keeps nothing |
| UpdateBody.NonEmptyKeepsAll | src/lib/utils.ts:12 | a list of non-empty pieces is kept whole |
| UpdateBody.TrimEachClean | src/lib/utils.ts:11 | trimming pieces with no white space at either end leaves every piece as it was |
| UpdateBody.JoinedItemsRoundTrip | src/lib/utils.ts:8-13 | clean items joined by '-' parse back to the same items |
| UpdateBody.ParseUpdateBody | src/lib/utils.ts:8-13 | defines the update list as the '-'-separated pieces, trimmed, with the empty ones dropped; ItemsAreClean, BlankBodyHasNoItems and JoinedItemsRoundTrip state what it yields |
| SafeNavigation.Guard.constructor | src/hooks/use-save-navigation.ts:6-7 | the guard starts with no dialog, no parked action and nothing run |
| SafeNavigation.Guard.AttemptAction | src/hooks/use-save-navigation.ts:9-17 | the action runs at once, reporting true, if and only if no request is in flight; otherwise it is parked and the dialog opens |
| SafeNavigation.Guard.ExecutePendingAction | src/hooks/use-save-navigation.ts:19-24 | the dialog closes, the requests are cancelled once, and the parked action, if any, runs once and is forgotten |
| SafeNavigation.Guard.CancelAction | src/hooks/use-save-navigation.ts:26-29 | the dialog closes and the parked action is dropped without running |
| SafeNavigation.ConfirmRunsOnce | src/hooks/use-save-navigation.ts:9-24 | example: from a fresh guard, an action parked behind the dialog and confirmed twice runs once, while the requests are cancelled twice (the fact for every state is ExecutePendingAction's ensures: confirming forgets the parked action) |
| SafeNavigation.CancelledNeverRuns | src/hooks/use-save-navigation.ts:9-29 | example (the fact for every state is CancelAction's ensures): a cancelled action never runs, even when the dialog is confirmed later |
| NavLink.Link.constructor | src/components/side-bar/intercepted-navLink.tsx:24-33 | the link starts with no dialog, no pending route and no navigation |
| NavLink.Link.HandleClick | src/components/side-bar/intercepted-navLink.tsx:35-50 | a disabled link does nothing; while a request is in flight the route is held and the dialog opens; otherwise the link navigates to its route |
| NavLink.Link.ConfirmNavigation | src/components/side-bar/intercepted-navLink.tsx:52-58 | the requests are cancelled, the dialog closes, and the held route, when non-empty, is navigated to; the handler itself keeps the held route (ConfirmAction adds the dialog close that clears it) |
| NavLink.Link.ConfirmAction | src/components/side-bar/intercepted-navLink.tsx:77-95 | the dialog's action button confirms and then closes the dialog: the requests are cancelled, the held route, when non-empty, is navigated to, and it is then forgotten |
| NavLink.Link.CancelNavigation | src/components/side-bar/intercepted-navLink.tsx:60-63 | the dialog closes and the held route is forgotten |
| NavLink.HeldClickConfirmed | src/components/side-bar/intercepted-navLink.tsx:35-58 | example (the facts for every state are HandleClick's and ConfirmNavigation's ensures): a click held by the dialog and confirmed reaches the link's route once |
| NavLink.DisabledGoesNowhere | src/components/side-bar/intercepted-navLink.tsx:35-39 | example (the fact for every state is HandleClick's ensures): a disabled link never navigates nor opens the dialog |
| LoginSchema.FirstLine | src/apis/login/schema.ts:3 | the text a look-ahead's `.*` can reach: a prefix with no line terminator, ending at the first terminator or the end |
| LoginSchema.CheckPassword | src/apis/login/schema.ts:12-20 | an accepted password is the trimmed input, and it matches the password pattern |
| LoginSchema.AcceptedPasswordHasEveryKind | src/apis/login/schema.ts:3 | an accepted password has 8 to 50 allowed characters with at least one lower-case letter, one upper-case letter, one digit and one special |
| LoginSchema.PasswordTrimmedFirst | src/apis/login/schema.ts:12-14 | surrounding white space never changes the password check |
| LoginSchema.CheckEmail | src/apis/login/schema.ts:5-10 | an e-mail is accepted exactly when it is non-empty as typed and a valid address once trimmed, and it is kept trimmed and lower-cased |
| LoginSchema.CheckMac | src/apis/login/schema.ts:22 | the MAC address is accepted if and only if it is absent, null or a string |
| LoginSchema.ParseSignIn | src/apis/login/schema.ts:4-23 | a value is accepted exactly when it is an object whose e-mail and password are strings passing their checks and whose MAC address is absent, null or a string; the form then holds the checked e-mail, the checked password and that MAC address |
| LoginSchema.SignInNormalises | src/apis/login/schema.ts:4-23 | a submitted form is accepted exactly when its e-mail and password pass their checks, and comes back with those two fields normalised and the MAC address unchanged |
| LoginSchema.SignInRoundTrip | src/apis/login/schema.ts:4-23 | a submitted form parses back to itself exactly when its e-mail and password are already trimmed, lower-cased and valid |
| LoginSchema.Utf16OfBmp | src/apis/login/schema.ts:15-16 | a string of characters in the basic plane has its length as UTF-16 length |
| LoginSchema.CheckIsPattern | src/apis/login/schema.ts:12-20 | for a password with no white space at either end, the check is exactly the pattern |
| LoginSchema.PatternLength | src/apis/login/schema.ts:15-17 | text the pattern accepts has one UTF-16 code unit per character and meets the 8 and 50 bounds |
| LoginSchema.PatternAccepted | src/apis/login/schema.ts:14-20 | trimmed text that the pattern accepts passes the length bounds and the pattern |
| LoginSchema.PasswordCharIsBmp | src/apis/login/schema.ts:3 | every allowed password character is in the basic plane |
| LoginSchema.FirstLineEndsAt | src/apis/login/schema.ts:3 | the first line ends at the first line terminator, or at the end |
| LoginSchema.SecondLineNotSearched | src/apis/login/schema.ts:3 | a password whose first line has no upper-case letter is refused whatever follows the line break, because the look-aheads do not search past it |
| LoginSchema.SingleLinePattern | src/apis/login/schema.ts:3 | on a password without line breaks the pattern holds exactly when it has a lower-case letter, an upper-case letter, a digit and a special, 8 to 50 characters, and only allowed characters |
| LoginSchema.ParseResponse | src/apis/login/schema.ts:29-36 | an answer is accepted if and only if status is a boolean, message a string and payload an object holding string access and refresh tokens |
| LoginSchema.ResponseRoundTrip | src/apis/login/schema.ts:29-36 | every answer of this shape parses back to itself, with or without an extra property |
| SimpleCoursSchema.ParseKind | src/components/form/schemas/add-cours-schema.ts:6 | a chapter type is accepted if and only if it is "lesson", "quiz" or "mixed", and it reads back as the same name |
| SimpleCoursSchema.ParseChapter | src/components/form/schemas/add-cours-schema.ts:3-10 | an accepted chapter has a non-empty title and a position of at least 1 |
| SimpleCoursSchema.ParseCourse | src/components/form/schemas/add-cours-schema.ts:12-17 | an accepted course has a non-empty title and description and at least one valid chapter |
| SimpleCoursSchema.StrArrayRoundTrip | src/components/form/schemas/add-cours-schema.ts:8-9 | an optional list of strings reads back as itself |
| SimpleCoursSchema.ChapterRoundTrip | src/components/form/schemas/add-cours-schema.ts:3-10 | a chapter written as a form value passes unchanged if and only if its rules hold |
| SimpleCoursSchema.CourseRoundTrip | src/components/form/schemas/add-cours-schema.ts:12-17 | a course written as a form value passes unchanged if and only if it and every chapter keep the rules |
| SimpleCoursSchema.KindRoundTrip | src/components/form/schemas/add-cours-schema.ts:6 | each of the three chapter kinds written out parses back to itself |
| SimpleCoursSchema.ChapterFieldsRead | src/components/form/schemas/add-cours-schema.ts:3-10 | an encoded chapter reads back its title, description, kind, position, materials and quizzes unchanged |
| CoursSchema.ParseChoice | src/components/form/cours/schemas/add-cours-schema.ts:4-7 | an accepted option has non-empty text |
| CoursSchema.ChoiceRoundTrip | src/components/form/cours/schemas/add-cours-schema.ts:4-7 | an option written as a form value parses back to itself exactly when its text is non-empty |
| CoursSchema.ParseQuestion | src/components/form/cours/schemas/add-cours-schema.ts:10-15 | an accepted question has non-empty text and at least one option, each valid |
| CoursSchema.QuestionRoundTrip | src/components/form/cours/schemas/add-cours-schema.ts:10-15 | a question written as a form value parses back to itself exactly when it is valid |
| CoursSchema.ParseQuiz | src/components/form/cours/schemas/add-cours-schema.ts:18-25 | an accepted embedded quiz has a non-empty title, at least one valid question, non-negative attempt and time totals and a success rate between 0 and 100 |
| CoursSchema.QuizBaseField | src/components/form/cours/schemas/add-cours-schema.ts:19-21 | a required field of an encoded quiz is not overwritten by the optional ones |
| CoursSchema.QuizOptFields | src/components/form/cours/schemas/add-cours-schema.ts:20-24 | each optional field of an encoded quiz is present exactly when it was given, with its value |
| CoursSchema.QuizQuestionsRead | src/components/form/cours/schemas/add-cours-schema.ts:21 | the questions of an encoded quiz parse back exactly when every question is valid |
| CoursSchema.QuizRoundTrip | src/components/form/cours/schemas/add-cours-schema.ts:18-25 | an embedded quiz parses back to itself exactly when its rules hold, and is rejected otherwise |
| CoursSchema.ParseKind | src/components/form/cours/schemas/add-cours-schema.ts:32 | a chapter type is accepted exactly when it is the string Video, Document or Quiz, and is read as that kind |
| CoursSchema.ParseDocument | src/components/form/cours/schemas/add-cours-schema.ts:42 | a document kind is accepted exactly when it is the string word, excel or upload, and is read as that kind |
| CoursSchema.DocumentRoundTrip | src/components/form/cours/schemas/add-cours-schema.ts:42 | each of the three document kinds written out parses back to itself |
| CoursSchema.ParseMaterial | src/components/form/cours/schemas/add-cours-schema.ts:36-39 | a study material is accepted exactly when it is an object whose file name and display name are strings |
| CoursSchema.MaterialsRoundTrip | src/components/form/cours/schemas/add-cours-schema.ts:34-41 | any list of study materials written as a form value parses back to itself |
| CoursSchema.QuizzesRoundTrip | src/components/form/cours/schemas/add-cours-schema.ts:45 | a list of quizzes parses back to itself exactly when every quiz is valid |
| CoursSchema.ParseChapter | src/components/form/cours/schemas/add-cours-schema.ts:28-46 | an accepted chapter has a title of at least 5 and a description of at least 20 characters, a position of at least 1 and only valid quizzes |
| CoursSchema.ChapterBaseField | src/components/form/cours/schemas/add-cours-schema.ts:30-33 | a required field of an encoded chapter is not overwritten by the optional ones |
| CoursSchema.ChapterBaseFields | src/components/form/cours/schemas/add-cours-schema.ts:30-33 | title, description, type and position of an encoded chapter read back as written |
| CoursSchema.ChapterOptFields | src/components/form/cours/schemas/add-cours-schema.ts:29 | the created-before flag, the study materials and the document kind are present exactly when given, with their values |
| CoursSchema.ChapterTailFields | src/components/form/cours/schemas/add-cours-schema.ts:43-45 | the JSON files text, the files value and the quizzes of an encoded chapter read back as written |
| CoursSchema.ChapterRequiredRead | src/components/form/cours/schemas/add-cours-schema.ts:30-33 | every required field of an encoded chapter parses back to the field |
| CoursSchema.ChapterOptionalRead | src/components/form/cours/schemas/add-cours-schema.ts:29 | the created-before flag and the JSON files text of an encoded chapter parse back to themselves, absent staying absent |
| CoursSchema.ChapterDocumentRead | src/components/form/cours/schemas/add-cours-schema.ts:42 | the document kind of an encoded chapter parses back to itself |
| CoursSchema.ChapterMaterialsRead | src/components/form/cours/schemas/add-cours-schema.ts:34-41 | the study materials of an encoded chapter parse back to themselves |
| CoursSchema.ChapterQuizzesRead | src/components/form/cours/schemas/add-cours-schema.ts:45 | the quizzes of an encoded chapter parse back to themselves, and fail exactly when one of them is invalid |
| CoursSchema.ChapterRoundTrip | src/components/form/cours/schemas/add-cours-schema.ts:28-46 | a chapter parses back to itself exactly when its rules hold, and is rejected otherwise |
| CoursSchema.ParseCourse | src/components/form/cours/schemas/add-cours-schema.ts:49-53 | an accepted course has a title of at least 5 and a description of at least 20 characters and at least one chapter, each valid |
| CoursSchema.CourseRoundTrip | src/components/form/cours/schemas/add-cours-schema.ts:49-53 | a course parses back to itself exactly when its rules hold, and is rejected otherwise |
| CoursSchema.UnknownDocumentKindRejected | src/components/form/cours/schemas/add-cours-schema.ts:42 | a valid chapter whose document kind is replaced by one outside word, excel and upload is rejected |
| CoursSchema.QuestionsRoundTrip | src/components/form/cours/schemas/add-cours-schema.ts:21 | a list of questions parses back to itself exactly when every question is valid, and is rejected otherwise |
| CoursSchema.QuizScalarsRead | src/components/form/cours/schemas/add-cours-schema.ts:18-25 | an encoded quiz reads back its title, configuration id, attempts, time and success rate unchanged |
| QuizSchema.ParseChoice | src/components/form/Quiz/schemas/quiz-schema.ts:4-7 | an accepted option has non-empty text |
| QuizSchema.ChoiceRoundTrip | src/components/form/Quiz/schemas/quiz-schema.ts:4-7 | an option parses back to itself exactly when its text is non-empty |
| QuizSchema.ParseQuestion | src/components/form/Quiz/schemas/quiz-schema.ts:10-16 | an accepted question has non-empty text and at least one option, each valid |
| QuizSchema.QuestionFields | src/components/form/Quiz/schemas/quiz-schema.ts:10-16 | every field of an encoded question, the point included, reads back as written, absent staying absent |
| QuizSchema.QuestionRoundTrip | src/components/form/Quiz/schemas/quiz-schema.ts:10-16 | a question parses back to itself exactly when it is valid |
| QuizSchema.ParseType | src/components/form/Quiz/schemas/quiz-schema.ts:22 | a quiz type is accepted exactly when it is one of choix-unique, choix-multiple, boolean and texte, and is read as that type |
| QuizSchema.TypeRoundTrip | src/components/form/Quiz/schemas/quiz-schema.ts:22 | each of the four quiz types written out parses back to itself |
| QuizSchema.DefaultZero | src/components/form/Quiz/schemas/quiz-schema.ts:29-32 | a missing total becomes 0, a number is kept, and anything else is rejected |
| QuizSchema.Totals | src/components/form/Quiz/schemas/quiz-schema.ts:29-32 | a missing attempts count or score reads as 0 |
| QuizSchema.ParseQuiz | src/components/form/Quiz/schemas/quiz-schema.ts:19-33 | an accepted quiz has a non-empty title, description and instructor and at least one valid question, and its missing totals are 0 |
| QuizSchema.QuizBaseField | src/components/form/Quiz/schemas/quiz-schema.ts:20-23 | a required field or total of an encoded quiz is not overwritten by the optional ones |
| QuizSchema.QuizOptFields | src/components/form/Quiz/schemas/quiz-schema.ts:22-28 | type, subject, shared subject, lesson and class configuration are present exactly when given, with their values |
| QuizSchema.QuizTextsRead | src/components/form/Quiz/schemas/quiz-schema.ts:20-23 | title, description and instructor of an encoded quiz parse back to themselves |
| QuizSchema.QuizTotalsRead | src/components/form/Quiz/schemas/quiz-schema.ts:29-32 | the four totals of an encoded quiz parse back to themselves |
| QuizSchema.QuizTypeRead | src/components/form/Quiz/schemas/quiz-schema.ts:22 | the optional type of an encoded quiz parses back to itself, absent staying absent |
| QuizSchema.QuizLinksRead | src/components/form/Quiz/schemas/quiz-schema.ts:24-28 | subject, shared subject, lesson and class configuration of an encoded quiz parse back to themselves |
| QuizSchema.QuestionsField | src/components/form/Quiz/schemas/quiz-schema.ts:27 | the questions field of an encoded quiz holds the encoded questions |
| QuizSchema.QuizQuestionsRead | src/components/form/Quiz/schemas/quiz-schema.ts:27 | the questions of an encoded quiz parse back exactly when every question is valid |
| QuizSchema.QuizRoundTrip | src/components/form/Quiz/schemas/quiz-schema.ts:19-33 | a quiz parses back to itself exactly when its rules hold, and is rejected otherwise |
| QuizSchema.MissingTotalsDefaultToZero | src/components/form/Quiz/schemas/quiz-schema.ts:29-32 | an accepted quiz with no totals has all four totals at 0 |
| QuizSchema.NonNumericTotalRejected | src/components/form/Quiz/schemas/quiz-schema.ts:29-32 | a quiz whose total is present but not a number is rejected |
| QuizSchema.QuestionsRoundTrip | src/components/form/Quiz/schemas/quiz-schema.ts:27 | a list of questions parses back to itself exactly when every question is valid, and is rejected otherwise |

## Left out

- WebSocketService.Service.Disconnect: the close event the browser delivers later, after socket.close(), is not part of the method; the close handler stays attached in the source (web-socket-service.ts:46-48, 118-124), and CloseAfterDisconnect runs that event afterwards and shows the reconnection it schedules.
- The native Tauri shell (`src-tauri/src/lib.rs`): it is plugin wiring and a MAC-address lookup with no logic of its own.
- Network and backend I/O are not modelled: axios calls and the token-refresh interceptor, react-query hooks, the socket.io connection, the raw WebSocket object, WebRTC signalling and the Jitsi page. Responses, socket readiness and `isRequestInProgress()` are parameters. The upload oracle's answer stands for what the request yields after the interceptor, so the interceptor's token refresh and re-send on a 498 answer are folded into it.
- Timers and asynchrony are not modelled: the reconnect delay, the upload back-off sleep, debouncing, simulated delays and the `Promise.all` fan-out in the upload. Every handler is one sequential step.
- DocumentGallery.TotalPages: a preview whose page size is 0 is given 0 pages, where the source divides by zero and gets Infinity or NaN; those float values are not modelled.
- Floating-point values are not modelled: upload and updater progress percentages, zoom clamps, gender percentages and `Math.round` of the passing score. JS numbers are integers except in the zod value model, where they are reals.
- Clock and locale are not modelled: Today/Yesterday grouping, locale date strings and `formatDistanceToNow`. Timestamps are integers.
- ClassFilter.ActiveFilters: the date chip's label is a fixed prefix, because the date in it is formatted by the locale.
- `Date.now()` ids come from the caller. The id-freshness the code relies on is a precondition wherever a lemma needs it.
- zod internals are not modelled: error messages and paths, and the address grammar inside `.email()`, which is a caller-supplied predicate.
- `toLowerCase` lowers ASCII letters only. Other letters keep their case.
- Library semantics are not modelled: zustand persistence and localStorage, react-hook-form `move`/`append`/`watch`, `cn`, and the Tauri `invoke` calls.
- Presentational code is not modelled: skeletons, cards, dialogs, toasts, the '9+' badge, icons, the route table, the fullscreen and zoom buttons, and the per-keystroke text-field handlers of the forms (`handleInputChange`, `handleQuestionTextChange` and the like), which copy the typed text into state.
- QuizEditor.TypeChange, QuizEditor.RemoveOption and QuestionForm.Form.RemoveOption: the source marks the first option correct by assigning to the option object, which the previous state shares. The model builds a new option, so it does not capture that aliasing.
- QcmForm.Form.MoveQuestion: requires `Moved(...).Some?`, which excludes only an "up" on an empty list (MovedUndefinedOnlyEmptyUp). The source returns early for "up" at index 0 and "down" at the last index (qcmForm.tsx:71-76), and the model does the same. On an empty list, an "up" finds index -1, so the two splices insert `undefined` into the list. That entry is not modelled.
- LegacyQuizBuilder.Builder.CorrectAnswerChange, DeleteOption, AddOption, DeleteQuestion, TypeChange and ScoreChange: require an index of a rendered question or option, because the component only passes those.
- CourseAccess.SaveRouteRoundTrip: requires ids without a comma, because an id with a comma would not split back into one id. The save button is never disabled. An empty selection is covered: it gives "classes=", which splits back to one empty id (SaveRouteEmpty).
- CourseAccess.Popup.SelectAll: takes the loaded class list. The source's behaviour while that list is still undefined is not modelled.
- AddConference.Dialog.SelectorChange: a `null` student, on which `s._id` throws, is not modelled.
- RetryQueue.Queue.Flush: callbacks are ids and do not run code, so a callback that queues another while the flush runs is not modelled. The source drops such a callback without running it.

## Findings

| source | as written | input that shows it | evidently intended | confidence | as-written member | corrected member |
|---|---|---|---|---|---|---|
| src/providers/socket.tsx:74 | every card for the logged-in user gets the id "socket-" + userId, and the store drops a card whose id it already holds | two meeting announcements for the same user, in one batch or in two | each announcement becomes its own notification | not executed | SocketProvider.SecondAnnouncementLost | SocketProvider.FreshIdsAllAdded |
| src/components/form/Quiz/quizEditor.tsx:38-45 | switching to single answer repairs only a question with no correct option and keeps every other flag | a multiple-choice question with two correct options switched to "choix-unique" | a single-answer question has exactly one correct option | not executed | QuizEditor.UniqueKeepsSeveral | QuizEditor.ToSingleCorrect |
| src/components/form/Quiz/quizBuilder.tsx:181 | the payload flag `isboolean` is `type === "boolean"`, a type the editors never produce | a question switched to "vrai-faux" in the editor | the flag marks true/false questions | not executed | QuizBuilder.TrueFalseNotFlagged | QuizBuilder.TrueFalseFlagged |
| src/components/form/Quiz/qcmForm.tsx:57 | every added question gets the id "1", and removal filters by id | add two questions, then remove one of them | each added question has an id of its own and removing it removes only that one | not executed | QcmForm.RemovingOneRemovesBoth | QcmForm.FreshIdRemovesOnlyIt |

In the four rows, the handlers model the code as written. The corrected definitions sit beside them, with the intended property proved:
- `SocketProvider.ToItemWithId` builds a card with a caller-supplied id.
- `QuizEditor.ToSingleCorrect` keeps one correct option.
- `QuizBuilder.IntendedIsBoolean` is the corrected flag.
- `QcmForm.AddedWithFreshId` adds a question under a fresh id.
