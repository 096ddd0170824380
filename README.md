# netPrint order domain, modelled in Dafny

netPrint is a photo-printing storefront. Customers configure a photo album, a
set of prints or a calendar. They then upload their own photos or book a
photographer, and the order is stored on the server. An admin moves orders
through the pipeline pending → processing → ready → delivered.

This project models the logic in the middle of that flow and proves
properties of it:

- `Pricing` (`pricing.dfy`): the client-side price calculator, and the
  configuration page's choice of which configuration a product tag prices.
- `Schema` (`schema.dfy`): the five tables as datatypes, with their column
  defaults. Also the insert schemas that decide which request fields a caller
  may set, the cascade from an order to its photos, and the configuration
  variants.
- `Seqs` (`seqs.dfy`): `Array.prototype.find`, the first element that passes a test.
- `Decimal` (`decimal.dfy`) and `IsoDate` (`iso_date.dfy`): zero-padded
  decimal fields, and the ISO 8601 text `toISOString` writes for an instant
  ("2025-06-01T09:00:00.000Z"), read back by `Parse`.
- `OrderedMap` (`ordered_map.dfy`): a JavaScript `Map` as a key sequence in
  insertion order plus a map. This is how the storage's `Array.from(map.values())`
  ordering is modelled.
- `Storage` (`storage.dfy`): the in-memory storage gateway `MemStorage`, as a
  class with five table fields, a fresh-id counter and a logical clock. Every
  method states the whole new state and keeps the invariant `Valid()`:
  - every stored row sits under its own id;
  - every id was handed out before the counter;
  - orders were inserted in creation order, with `createdAt <= updatedAt <= clock`.

  `Referential()` states that every photo refers to a stored order, and the
  methods that can keep it do keep it.
- `Routes` (`routes.dfy`): the request rules of the order API. These are the
  401/403 guards, the caller's order list, order creation with its
  photo-attaching loop, the owner-or-admin check and the admin status update.
- `Upload` (`upload.dfy`): the upload page's file list with its cap of twenty,
  and the submit loop that collects one storage path per file.
- `FaqChatbot` (`chatbot.dfy`): the FAQ widget as a class with its message
  list and its list of questions on offer. The deferred bot reply is a
  separate step.
- `AdminDashboard` (`admin_dashboard.dfy`): the statistics folds, the redirect
  of non-admins and the status selector.
- `PhotographerBooking` (`booking.dfy`): the booking page. It covers the time
  slots, the combined price, the submit guard, the predefined locations and
  the order body the page posts.

A few encodings run through every module:

- Ids are natural numbers handed out by a counter; in the source they come
  from `randomUUID`.
- Timestamps are readings of a logical clock that ticks once per stamping
  operation; in the source they come from `new Date()`.
- Sorting by `createdAt` descending is the reverse of insertion order.
  `Storage.NewestFirstUnique` shows that it is the only newest-first
  arrangement of the same orders.

Four behaviours of the code that the model keeps as they are:

- The comment on the `status` column (shared/schema.ts:42) names the statuses
  pending, processing, ready and delivered. The server stores any non-empty
  status string as given (`Routes.PatchOrderStatus`). Only the dashboard's
  selector limits it to those four.
- The order insert schema (shared/schema.ts:114-118) leaves `status` among the
  columns a caller may send, and `createOrder` keeps `order.status ?? "pending"`
  (server/storage.ts:225). So a POST body can create an order in any status
  (`Storage.NewOrder`, `Routes.PostOrder`).
- `createOrder` calls `new Date()` twice (server/storage.ts:231-232), once for
  `createdAt` and once for `updatedAt`. The model reads the clock once, so the
  two stamps are equal. Two separate readings could differ by a millisecond.
- The dashboard redirects only a signed-in non-admin. A guest is not redirected
  by the page itself (`AdminDashboard.View`).

## Model

| member | source | states |
|---|---|---|
| OrderedMap.Empty | server/storage.ts:137-143 | a new table has no keys and no rows |
| OrderedMap.Get | server/storage.ts:145-147 | lookup answers the stored row exactly when the key is present |
| OrderedMap.Set | server/storage.ts:163 | setting a key stores the value, appends a new key at the end of the insertion order, and keeps the place of a key already present |
| OrderedMap.Values | server/storage.ts:150 | `values()` lists one row per key, in key insertion order |
| OrderedMap.ValuesMembers | server/storage.ts:150 | the listed values are exactly the stored rows |
| OrderedMap.ValuesOfSetNew | server/storage.ts:234 | inserting a new key appends its value to the listing |
| OrderedMap.ValuesOfSetOld | server/storage.ts:243 | overwriting a present key replaces its value in place in the listing |
| Seqs.Find | server/storage.ts:149-153 | `find` answers none exactly when no element satisfies the test, and otherwise the first element that does |
| Seqs.FindAt | client/src/components/faq-chatbot.tsx:79 | an element that satisfies the test, with no earlier element satisfying it, is the one found |
| Decimal.Digit | client/src/pages/photographer-selection-page.tsx:61 | the character of digit d is the d-th character after '0' |
| Decimal.DigitValue | client/src/pages/photographer-selection-page.tsx:61 | a digit character's value is below ten, and writing it gives the character back |
| Decimal.Digits | client/src/pages/photographer-selection-page.tsx:61 | a field written with w digits is w digit characters long |
| Decimal.Value | client/src/pages/photographer-selection-page.tsx:61 | a string of w digits stands for a number below 10^w |
| Decimal.ValueOfDigits | client/src/pages/photographer-selection-page.tsx:61 | reading a zero-padded field gives the number back |
| Decimal.DigitsOfValue | client/src/pages/photographer-selection-page.tsx:61 | writing the value of a digit string at its width gives the string back |
| IsoDate.Format | client/src/pages/photographer-selection-page.tsx:61 | `toISOString` text is 24 characters with its separators at fixed places |
| IsoDate.Parse | shared/schema.ts:53 | only text with the format's separators and digits can be read as an instant |
| IsoDate.ParseFormat | client/src/pages/photographer-selection-page.tsx:61 | reading the ISO text of an instant gives that instant back |
| IsoDate.FormatParse | shared/schema.ts:53 | a text read as an instant is that instant's ISO text, so the reading is one-to-one |
| Schema.ApplyUpdate | server/storage.ts:199 | `{...product, ...updates}`: each field given in the update overrides, every other field, id, name and createdAt included, is kept |
| Schema.ApplyEmptyUpdate | server/storage.ts:199 | an update that gives no field leaves the product equal to itself |
| Schema.ParseInsertUser | shared/schema.ts:99-102 | the user insert schema accepts a body exactly when username and password are present, and takes those two fields |
| Schema.IsAdminNotSettable | shared/schema.ts:99-102 | whatever `isAdmin` the body carries, the parsed insert is the same |
| Schema.ParseInsertOrderAsWritten | shared/schema.ts:53 | the generated order schema accepts a body exactly when the required not-null columns without a default are present and no shooting date is given, since a JSON body can only carry the date as text |
| Schema.ParseInsertOrder | shared/schema.ts:38-60 | the order schema with the date read from ISO text: a body parses exactly when the required columns are present and any shooting date is an ISO instant; each other field is carried over unchanged, status stays optional, and the date becomes the instant the text denotes |
| Schema.AsWrittenDiffersOnlyOnDates | shared/schema.ts:114-118 | on a body without a shooting date both schemas give the same insert; a body with one is refused by the generated schema |
| Schema.OrderKeysNotSettable | shared/schema.ts:114-118 | `id`, `createdAt` and `updatedAt` in a body have no effect on the parsed insert |
| Schema.DeleteOrderCascade | shared/schema.ts:65 | deleting an order removes it and exactly the photos attached to it, and keeps every other order and photo unchanged |
| Schema.CascadeKeepsReferences | shared/schema.ts:65 | when every photo refers to a stored order, after the cascading delete every remaining photo still refers to a remaining order, and no photo of the deleted order is left |
| Schema.MonthCount | shared/schema.ts:155 | a calendar has 6 or 12 months, and 12 exactly for the twelve-month option |
| Pricing.AlbumPrice | client/src/pages/product-config-page.tsx:24-33 | album price = 500 + size extra (0/500/1000) + cover extra (0/300/800) + 50 per page + 200 for glossy paper |
| Pricing.PrintUnit | client/src/pages/product-config-page.tsx:36-40 | the size sets the unit price to 10, 15 or 25 (an override, not a surcharge); glossy adds 3 and a border adds 2, so the unit lies between 10 and 30 |
| Pricing.PrintsPrice | client/src/pages/product-config-page.tsx:34-41 | prints price = unit × quantity, between 10 and 30 per print for a non-negative quantity |
| Pricing.CalendarPrice | client/src/pages/product-config-page.tsx:42-50 | calendar price = 600 + 200 for a wall calendar + 300 for A3 + 200 for 12 months + 150 for a spiral, so between 600 and 1450 |
| Pricing.CalculatePrice | client/src/pages/product-config-page.tsx:23-51 | "photoalbum" is priced by the album rule, "photos" and "prints" by the prints rule, and every other tag by the calendar rule |
| Pricing.PhotosAndPrintsAgree | client/src/pages/product-config-page.tsx:34 | the tags "photos" and "prints" give the same price for the same configuration |
| Pricing.PrintsLinearInQuantity | client/src/pages/product-config-page.tsx:41 | the prints price of q1 + q2 prints is the sum of the prices of q1 and of q2 prints |
| Pricing.AlbumPageCost | client/src/pages/product-config-page.tsx:31 | each extra album page adds exactly 50 |
| Pricing.AlbumPagesMonotone | client/src/pages/product-config-page.tsx:31 | more pages never cost less |
| Pricing.PrintsQuantityMonotone | client/src/pages/product-config-page.tsx:41 | more prints never cost less |
| Pricing.PriceNonNegative | client/src/pages/product-config-page.tsx:23-51 | with a non-negative page count and quantity, no price is negative |
| Pricing.WorkedExamples | client/src/pages/product-config-page.tsx:23-51 | a 30-page medium hard glossy album costs 3000; ten bordered glossy 20x30 prints cost 300; the fullest calendar costs 1450 |
| Pricing.CurrentConfig | client/src/pages/product-config-page.tsx:85-89 | the page hands the calculator the configuration its tag selects, which always has the variant the calculator casts it to |
| Pricing.InitialPagePrices | client/src/pages/product-config-page.tsx:62-83 | the initial configurations price to 2500 (album), 130 (photos or prints) and 1150 (calendar or any other tag) |
| Pricing.ProductPage | client/src/pages/product-config-page.tsx:91-112 | the configurator is shown exactly for photoalbum, photos, prints and calendar, and any other tag gets "product not found"; the price shown is the calculator's price for the configuration the tag selects |
| Pricing.InitialProductPages | client/src/pages/product-config-page.tsx:62-112 | with the initial configurations the page shows 2500 for an album, 130 for photos or prints, 1150 for a calendar, and "product not found" for every other tag |
| Storage.Reverse | server/storage.ts:205-207 | the reverse keeps the length and lists the elements back to front |
| Storage.ReverseAppend | server/storage.ts:205-207 | the element inserted last comes first in the reversed listing |
| Storage.ReverseMembers | server/storage.ts:205-207 | the reversed listing holds the same elements |
| Storage.ReverseIsNewestFirst | server/storage.ts:205-207 | orders kept in creation order, reversed, are sorted by createdAt descending |
| Storage.NewestFirstUnique | server/storage.ts:205-207 | two newest-first lists of the same orders are equal, so the sort has one result |
| Storage.OwnedBy | server/storage.ts:212 | the user filter never lengthens the list |
| Storage.OwnedByMembers | server/storage.ts:212 | the filter keeps exactly the orders whose userId is the given user |
| Storage.OwnedByBounded | server/storage.ts:212 | the filter keeps a lower bound on creation times |
| Storage.OwnedByAscending | server/storage.ts:211-212 | the filter keeps creation order |
| Storage.OwnedByAppend | server/storage.ts:211-212 | filtering a list with one more order adds that order exactly when it belongs to the user |
| Storage.ForOrder | server/storage.ts:260-261 | the photo filter never lengthens the list |
| Storage.ForOrderMembers | server/storage.ts:260-261 | the filter keeps exactly the photos of the given order |
| Storage.ForOrderAppend | server/storage.ts:260-261 | filtering a list with one more photo adds that photo exactly when it belongs to the order |
| Storage.ForOrderNone | server/storage.ts:260-261 | when no photo belongs to the order, the filter is empty |
| Storage.PhotosAfterInsert | server/storage.ts:248-262 | after a photo is stored, its own order's photo list ends with it, and every other order's list is unchanged |
| Storage.PhotoPaths | server/storage.ts:248-257 | one path per photo, in list order |
| Storage.PhotoPathsAppend | server/storage.ts:248-257 | the paths of a concatenation are the concatenated paths |
| Storage.NewOrder | server/storage.ts:220-233 | the stored row: status is the given one or "pending" when absent, every other column is the insert's, and createdAt and updatedAt are the same reading |
| Storage.InsertNewest | server/storage.ts:220-236 | storing an order under the next id, stamped with the next clock reading, keeps the store invariant and appends the order to the listing |
| Storage.RestampOrder | server/storage.ts:238-246 | restamping a stored order with a later updatedAt keeps the store invariant, and the order keeps its place in the listing |
| Storage.InsertPhoto | server/storage.ts:248-257 | storing a photo under the next id keeps the store invariant and appends the photo to the listing |
| Storage.ViewsAfterInsert | server/storage.ts:204-214 | a new order heads the newest-first listing and its owner's view; every other user's view is unchanged |
| Storage.MemStorage.constructor | server/storage.ts:137-143 | all five tables start empty, and the invariant and the reference rule hold |
| Storage.MemStorage.GetUser | server/storage.ts:145-147 | a user is found exactly when the id is stored, and it carries that id |
| Storage.MemStorage.GetUserByUsername | server/storage.ts:149-153 | some stored user with the username is found exactly when one exists; uniqueness is not assumed |
| Storage.MemStorage.CreateUser | server/storage.ts:155-165 | a new user under a fresh id is never an admin, carries the given username and password, and can then be found by id; no other table changes |
| Storage.MemStorage.AllPhotographers | server/storage.ts:167-169 | every stored photographer, one entry each |
| Storage.MemStorage.GetPhotographer | server/storage.ts:171-173 | a photographer is found exactly when the id is stored |
| Storage.MemStorage.CreatePhotographer | server/storage.ts:175-185 | a new photographer under a fresh id keeps the given fields, with the rating defaulting to 5, and can then be found by id |
| Storage.MemStorage.AllProducts | server/storage.ts:187-189 | every stored product type, one entry each |
| Storage.MemStorage.GetProductByName | server/storage.ts:191-193 | some product with the name is found exactly when one exists |
| Storage.MemStorage.UpdateProduct | server/storage.ts:195-202 | a missing id answers none and changes nothing; otherwise the merged product replaces the stored one and is returned |
| Storage.MemStorage.AllOrders | server/storage.ts:204-208 | every stored order, exactly once each, newest first |
| Storage.MemStorage.OrdersByUser | server/storage.ts:210-214 | exactly the user's orders, newest first |
| Storage.MemStorage.GetOrder | server/storage.ts:216-218 | an order is found exactly when the id is stored |
| Storage.MemStorage.CreateOrder | server/storage.ts:220-236 | a new order, the `NewOrder` row under a fresh id and the next clock reading, goes last in the table and can then be found by id; no other table changes |
| Storage.MemStorage.UpdateOrderStatus | server/storage.ts:238-246 | an unknown id answers none and changes nothing; a known one gets the status verbatim and a fresh updatedAt, keeps every other field and its place, and leaves all other orders alone; the same status twice leaves the status as it was |
| Storage.MemStorage.OrderPhotos | server/storage.ts:259-262 | exactly the stored photos of the order |
| Storage.MemStorage.UnknownOrderHasNoPhotos | server/storage.ts:259-262 | while every photo refers to a stored order, an order id not yet stored has no photos |
| Storage.MemStorage.AddOrderPhoto | server/storage.ts:248-257 | a new photo under a fresh id goes last in the photo table; no other table changes, and the reference rule holds when its order exists |
| Routes.RequireAuth | server/routes.ts:8-13 | the handler runs exactly for a signed-in user; anybody else gets 401 |
| Routes.RequireAdmin | server/routes.ts:15-20 | the handler runs exactly for a signed-in admin; a guest or a plain user gets 403 |
| Routes.AdminImpliesAuth | server/routes.ts:8-20 | every request the admin guard lets through, the authentication guard lets through too |
| Routes.GetMyOrders | server/routes.ts:92-100 | a guest gets 401; a user gets exactly their own orders, newest first |
| Routes.AttachedPaths | server/routes.ts:119 | the paths attached are the array's elements, and none when the field is absent or not an array |
| Routes.AttachStep | server/routes.ts:120-125 | one more photo carrying the next path extends the attached paths by that path |
| Routes.AttachPhotos | server/routes.ts:120-125 | the order's photo paths grow by the given paths in order; other orders' photos and every other table are unchanged, and the id counter and the clock advance once per path |
| Routes.CreateWithPhotos | server/routes.ts:117-126 | the success path: the `NewOrder` row under the next id and clock reading is stored, then one photo per path is attached in order; id counter and clock advance once for the order and once per photo; other orders' photos and the other tables are unchanged |
| Routes.PostOrder | server/routes.ts:102-133 | a guest gets 401 and a body the insert schema rejects gets 400, neither changing anything; otherwise the stored and returned order is the `NewOrder` row of the parsed body under the session user's id whatever the body said (so its status is the body's or "pending", and its price, configuration, photo source and booking fields are the body's), and it carries exactly one photo per uploaded path, in array order |
| Routes.PostOrderAsWritten | server/routes.ts:106-115 | as written, the route's schema refuses every signed-in body with a shooting date, which answers 400; without a date it decides exactly as the schema `PostOrder` uses |
| Routes.GetOrderById | server/routes.ts:135-151 | a guest gets 401; a missing order 404; the order when the caller owns it or is an admin, and 403 otherwise |
| Routes.PatchOrderStatus | server/routes.ts:163-180 | a non-admin gets 403 and a falsy status 400, neither changing anything; an unknown order gets 404; otherwise the status string is stored as given, unchecked against the four statuses |
| Upload.SelectFiles | client/src/pages/upload-photos-page.tsx:22-36 | a selection is refused exactly when the total would exceed 20 (exactly 20 is allowed); an accepted one is the old list followed by the new files |
| Upload.AfterSelect | client/src/pages/upload-photos-page.tsx:22-36 | the list after a selection: old ++ new within the cap, the old list unchanged beyond it |
| Upload.RemoveFile | client/src/pages/upload-photos-page.tsx:38-40 | an index in range removes exactly that file and keeps the order of the rest; an index out of range leaves the list unchanged |
| Upload.RemoveFileLength | client/src/pages/upload-photos-page.tsx:38-40 | a removal shortens the list by one when the index is in range, and otherwise not at all |
| Upload.Step | client/src/pages/upload-photos-page.tsx:22-40 | no select or remove takes a list within the cap beyond it |
| Upload.NeverOverLimit | client/src/pages/upload-photos-page.tsx:22-40 | from a list within the cap, such as the empty one, no run of selects and removes exceeds 20 files |
| Upload.RunAppend | client/src/pages/upload-photos-page.tsx:22-40 | two batches of events run one after the other give the same list as running them together |
| Upload.HandleSubmit | client/src/pages/upload-photos-page.tsx:81-137 | an empty list is refused before anything is uploaded; the submit fails, with no order requested, exactly when the upload of some file fails; otherwise there is one path per file, in file order |
| FaqChatbot.Questions | client/src/components/faq-chatbot.tsx:65 | the question of each FAQ entry, in list order |
| FaqChatbot.KnownQuestion | client/src/components/faq-chatbot.tsx:79-80 | a question is answered exactly when it is on the FAQ list |
| FaqChatbot.QuestionsDistinct | client/src/components/faq-chatbot.tsx:20-53 | no question appears twice on the FAQ list |
| FaqChatbot.Without | client/src/components/faq-chatbot.tsx:101 | the filter keeps exactly the questions other than the clicked one |
| FaqChatbot.WithoutOnce | client/src/components/faq-chatbot.tsx:101 | a question listed once is removed at its position, and the others keep their order |
| FaqChatbot.WithoutAbsent | client/src/components/faq-chatbot.tsx:101 | filtering out a question that is not listed changes nothing |
| FaqChatbot.AnswerOfListed | client/src/components/faq-chatbot.tsx:79-99 | clicking the i-th question brings up the i-th answer |
| FaqChatbot.ClickFromFullList | client/src/components/faq-chatbot.tsx:101 | clicking the i-th question of the full list removes exactly that entry and keeps the others in order |
| FaqChatbot.SubsequenceRefl | client/src/components/faq-chatbot.tsx:64-66 | every list of questions is a subsequence of itself, so the initial list is one of the FAQ list |
| FaqChatbot.WithoutSubsequence | client/src/components/faq-chatbot.tsx:101 | filtering keeps a list a subsequence of the FAQ list |
| FaqChatbot.WithoutShrinks | client/src/components/faq-chatbot.tsx:101 | filtering never adds a question: the new list is a subsequence of the old |
| FaqChatbot.Chatbot.constructor | client/src/components/faq-chatbot.tsx:56-66 | one greeting from the bot, and all eight questions on offer in list order |
| FaqChatbot.Chatbot.QuestionClick | client/src/components/faq-chatbot.tsx:78-102 | an unknown question changes nothing; a known one appends the user's message, schedules its answer and leaves the offer; the offer only ever shrinks and stays a subsequence of the FAQ list |
| FaqChatbot.Chatbot.ReplyArrives | client/src/components/faq-chatbot.tsx:91-99 | the oldest scheduled answer arrives as one bot message |
| FaqChatbot.Chatbot.Reset | client/src/components/faq-chatbot.tsx:104-114 | back to exactly the greeting and the full question list; replies already scheduled still arrive |
| AdminDashboard.RevenueAppend | client/src/pages/admin-dashboard-page.tsx:64 | revenue is additive over concatenation |
| AdminDashboard.RevenueNonNegative | client/src/pages/admin-dashboard-page.tsx:64 | with no negative price, the revenue is not negative |
| AdminDashboard.RevenueReverse | client/src/pages/admin-dashboard-page.tsx:64 | the revenue of the newest-first listing is the revenue in insertion order |
| AdminDashboard.Pending | client/src/pages/admin-dashboard-page.tsx:65 | exactly the orders whose status is "pending", never more orders than given |
| AdminDashboard.ComputeStats | client/src/pages/admin-dashboard-page.tsx:62-71 | no statistics while the orders are not loaded; otherwise the count, the sum of prices, and the number of pending orders, which is at most the count |
| AdminDashboard.StatsAppend | client/src/pages/admin-dashboard-page.tsx:62-65 | each statistic of a concatenation is the sum of the statistics of its parts |
| AdminDashboard.PendingAppend | client/src/pages/admin-dashboard-page.tsx:65 | the pending filter distributes over concatenation |
| AdminDashboard.View | client/src/pages/admin-dashboard-page.tsx:33-35 | exactly a signed-in non-admin is redirected, and to "/" |
| AdminDashboard.StatusOptionsAreOrderStatuses | client/src/pages/admin-dashboard-page.tsx:222-225 | the selector offers exactly pending, processing, ready and delivered, the default status first |
| PhotographerBooking.HourLabel | client/src/pages/photographer-selection-page.tsx:22-25 | an hour label is the hour in two digits, which read back as the hour, followed by ":00" |
| PhotographerBooking.TimeSlotsAreHours | client/src/pages/photographer-selection-page.tsx:22-25 | the twelve slots are the whole hours 09:00 through 20:00, in order |
| PhotographerBooking.TotalPrice | client/src/pages/photographer-selection-page.tsx:46-47 | the product price plus the selected photographer's hourly rate, or the product price alone when none is selected or found |
| PhotographerBooking.TotalPriceCases | client/src/pages/photographer-selection-page.tsx:46-47 | the rate of the first photographer with the id is added; nothing is added when the id is not listed, the list is not loaded, or nothing is selected |
| PhotographerBooking.LocationNamesDistinct | client/src/pages/photographer-selection-page.tsx:99-109 | no two predefined places share a name |
| PhotographerBooking.PredefinedLocations | client/src/pages/photographer-selection-page.tsx:99-109 | every predefined place is found under its own name, and the photographer's choice sits at the city centre, where the map starts |
| PhotographerBooking.BookingForm.constructor | client/src/pages/photographer-selection-page.tsx:36-40 | nothing is chosen, the coordinates are the centre of Moscow, and the places on offer are the predefined ones |
| PhotographerBooking.BookingForm.LocationChange | client/src/pages/photographer-selection-page.tsx:111-117 | the location is always set to the value; the coordinates change only to those of a predefined place of that name |
| PhotographerBooking.BookingForm.Submit | client/src/pages/photographer-selection-page.tsx:50-65 | a body is sent exactly when photographer, date, time and location are all set; it has photo source "photographer", the combined total as its price, the stored configuration or `{}`, and the date as its ISO text |
| PhotographerBooking.BookingForm.SubmittedBodyRefusedAsWritten | client/src/pages/photographer-selection-page.tsx:55-65 | the generated order schema refuses every body the page submits once the server adds the user id |
| PhotographerBooking.BookingForm.SubmittedBodyParses | client/src/pages/photographer-selection-page.tsx:85-96 | with the date read from ISO text, every submitted body passes the order schema once the server adds the user id, giving a photographer order at the combined price, on the chosen date, with the stored configuration or `{}` |

## Left out

- `Storage.MemStorage.CreateOrder`: its contract states that the new order goes last in the table. That it heads the newest-first listing and its owner's view is stated by `Storage.ViewsAfterInsert` on that table, not by the method.
- `Storage.MemStorage.AddOrderPhoto`: its contract states that the photo goes last in the photo table. What that does to each order's photo list is stated by `Storage.PhotosAfterInsert`, and `Routes.AttachPhotos` uses it.
- `Storage.MemStorage.UpdateOrderStatus`: the source changes the stored order object in place and returns that same object. The model replaces the row with a new value, so aliasing between the returned object and the stored one is not modelled.
- The database-backed storage (`DbStorage`) and the environment-based choice between the two backends: SQL I/O. The storage contract is modelled through `MemStorage` alone.
- Registration, login, password hashing and the session middleware (server/auth.ts): crypto and framework plumbing. A session is a parameter, signed-in or not.
- The object-storage signing sidecar (server/object-storage.ts) and the PUT upload: network calls. Their combined answer for each file (its path, or a thrown error) is the parameter `upload` of `Upload.HandleSubmit`.
- `Routes.PostOrder`: it validates with the corrected order schema of "## Findings". As written, the route answers 400 to every authenticated body with a shooting date, and `Routes.PostOrderAsWritten` states that refusal; on bodies without a date the two agree.
- `Upload.HandleSubmit`: the `uploading` flag that the `finally` block resets, the toasts, and the session-storage write of the paths are not modelled; the outcome says which toast shows and whether the order is requested.
- The seed script, and the rendering and navigation pages (home, catalog, auth, profile, the app shell): I/O and presentation only.
- The route handlers outside the order rules: product and photographer listings, `PATCH /api/products/:id`, the admin order listing, the order-photos listing and the signed-url endpoint. The storage methods behind them are modelled.
- `Schema.ApplyUpdate`: the source imports `updateProductTypeSchema` and the type `UpdateProductType` (server/routes.ts:5, server/storage.ts:7), but shared/schema.ts defines neither. The updatable fields of `ProductUpdate` (display name, description, base price and image) are therefore an assumption of the model, not something the source states.
- `MemStorage` has no method that inserts a product type, so its product table stays empty. `UpdateProduct` and `GetProductByName` are modelled on a table of any content.
- Wall-clock time: `new Date()` is a logical clock that ticks once per stamping call. The dashboard's `todayOrders` count and all date formatting are not modelled.
- Two orders created within the same millisecond: the comparator (server/storage.ts:205-207) returns 0 for them, and the stable `Array.prototype.sort` keeps them in insertion order, oldest first, where the model's reversal would put them newest first. The logical clock never produces such a tie, so the model does not cover this case.
- `randomUUID`: ids come from a counter, so they are fresh by construction.
- Zod validation: it is modelled as the presence of the required columns, and for `shooting_date` as the date rule under "## Findings". Type mismatches inside fields (a string where a number belongs) are excluded by the Dafny types. The non-string `status` values that JavaScript truthiness would admit are not modelled.
- The product configuration and the coordinates are stored as JSON in the source. The model uses the typed `ProductConfig` and an opaque pair of reals, and no arithmetic is done on coordinates.
- `uploadedPhotoPaths` elements are taken to be strings, and the field is absent, not an array, or an array of paths.
- `sessionStorage`, URL parameters and `parseInt` on the pages: the product type, the price and the stored configuration are parameters. The `{}` the booking page sends without a stored configuration is the variant `EmptyConfig`.
- The chatbot's 500 ms timer is the separate step `ReplyArrives`, in scheduling order. Message ids and timestamps, and the scrolling effect, are not modelled.
- The booking page's empty-string "nothing selected" for the photographer is `None`. The picked date is held as its UTC calendar fields; the local-time-zone shift of the date picker's midnight is not modelled.
- `IsoDate.Parse`: it reads only the 24-character form `toISOString` writes, while JavaScript's date parsing accepts further forms, and it checks each field's range but not the day against the month's length.
- Concurrency: requests and async handlers run one at a time, to completion.

## Findings

| source | as written | input that shows it | evidently intended | confidence | as-written member | corrected member |
|---|---|---|---|---|---|---|
| shared/schema.ts:53 and client/src/pages/photographer-selection-page.tsx:61 | the generated order schema types `shooting_date` as a date object, while the booking page sends `selectedDate?.toISOString()`, a string, in a JSON body, so POST /api/orders answers 400 | any booking that passes the page's guard, which demands a date: for instance 2025-06-01 sent as "2025-06-01T00:00:00.000Z" | the server reads the ISO text as the instant it denotes and stores the booking | medium, not executed | Schema.ParseInsertOrderAsWritten, PhotographerBooking.BookingForm.SubmittedBodyRefusedAsWritten | Schema.ParseInsertOrder, PhotographerBooking.BookingForm.SubmittedBodyParses |

`Routes.PostOrder` validates with the corrected `Schema.ParseInsertOrder`.
`Schema.AsWrittenDiffersOnlyOnDates` shows that the two schemas agree on every
body without a shooting date, such as the ones the upload page sends.
