# Studio booking backend — a Dafny model

This project models the decision logic of a recording-studio booking backend
(Express and Sequelize). The tables of the database become classes holding a
sequence of rows. The model covers:

- the booking admission check (interval validation, then the overlap hook) and
  the invariant it protects: no two live bookings of a studio share an instant;
- price calculation from the studio's hourly rate;
- the payment hooks that carry a payment's outcome to its booking, and refunds;
- studio listing with its filters, the truthy-merge update, the guarded soft
  delete and the availability query;
- equipment defaults, status setters and queries;
- notifications: defaults, delivery flags, per-user and per-booking feeds,
  "mark all as read", the four notice builders, and the controller's pagination
  and ownership checks;
- the authentication middleware (`protect`, `admin`, `staff`, `ownerOrAdmin`);
- the account controller (registration, login, profile update, and the
  password-reset token's lifecycle);
- the error handler's status and message mapping, and the not-found middleware.

Conventions used throughout:

- Times are integer milliseconds.
- Money and durations are `real`. The hour fraction of a booking is exact, so
  `rate * hours` is exact.
- Ids are `nat`.
- A value the request or the row leaves absent is `Option.None`.
- A handler either answers `Ok(value)` or throws. A throw is
  `Err(status, Error(name, message))`, where `status` is what the handler set
  with `res.status(…)` before throwing. `StatusUnset` (200) means it set
  nothing, and the error handler then answers 500.
- Sequelize runs field validators before the `beforeCreate` hook. So a
  reversed booking interval is a validation error (400 after the handler). A
  clash is a plain error with no status (500 after the handler).

The overlap test is the one the code runs: the booking starts inside the
request, or ends inside it, or covers it. Each `BETWEEN` in that test includes
both ends. For well-formed intervals this is exactly the intersection of
closed intervals (`Bookings.ThreeWayIsClosedIntersection`). As a result, two
bookings that only touch (one ends at 11:00, the next starts at 11:00)
conflict (`Bookings.TouchingIntervalsConflict`); a half-open test would let
both stand. The table invariant `NoOverlap` is therefore stated over closed
intervals.

Every `findAll` query is stated in full. Its membership test is given, and
each matching row appears as often as in the table (a `multiset` equation).
Non-matching rows do not appear, and the order is the query's `ORDER BY`.

## Model

| member | source | states |
|---|---|---|
| Bookings.ThreeWayIsClosedIntersection | backend/src/models/Booking.js:76-93 | for valid intervals the three-way test holds iff the closed intervals intersect |
| Bookings.TouchingIntervalsConflict | backend/src/models/Booking.js:79-84 | an interval ending at t and one starting at t conflict, because BETWEEN is inclusive; a 1 ms gap does not conflict |
| Bookings.FindClash | backend/src/models/Booking.js:70-95 | the hook's query finds a live booking of the same studio that passes the test, and finds nothing iff no such booking exists |
| Bookings.Admission | backend/src/models/Booking.js:40-99 | creation succeeds iff end > start and nothing clashes; a reversed interval gives the validator's message, a clash gives "already booked" with no status; the new row is pending/pending with no price |
| Bookings.OnlyLiveSameStudioBookingsBlock | backend/src/models/Booking.js:72-75 | cancelled bookings and bookings of other studios never block an admission |
| Bookings.AdmissionKeepsNoOverlap | backend/src/models/Booking.js:68-99 | appending an admitted booking keeps every interval valid and keeps live bookings of a studio disjoint |
| Bookings.CancelKeepsNoOverlap | backend/src/models/Booking.js:47-50 | setting any booking's status to cancelled keeps the table free of overlaps |
| Bookings.Duration | backend/src/models/Booking.js:106-108 | the duration in hours times one hour of milliseconds is end − start; it is positive for a valid interval |
| Bookings.Price | backend/src/models/Booking.js:110-123 | the price is the found studio's hourly rate times the duration; an unknown or deleted studio gives "Studio not found" |
| Bookings.PriceExample | backend/src/models/Booking.js:118-121 | 50 an hour for 90 minutes costs 75 |
| Bookings.FindByUser | backend/src/models/Booking.js:126-131 | exactly the user's bookings, each as often as in the table, latest start first |
| Bookings.FindByStudio | backend/src/models/Booking.js:133-138 | exactly the studio's bookings, each as often as in the table, earliest start first |
| Bookings.FindUpcoming | backend/src/models/Booking.js:140-153 | exactly the user's non-cancelled bookings starting after now, each as often as in the table, earliest first |
| Bookings.IndexOf | backend/src/models/Payment.js:75 | the position of the booking with that id, or none when no row has it |
| Bookings.BookingTable.Create | backend/src/models/Booking.js:68-99 | the outcome is `Admission` of the old rows; on success exactly that row is appended under a fresh id and the id counter advances, otherwise nothing changes; the no-overlap invariant is kept |
| Bookings.BookingTable.CalculatePrice | backend/src/models/Booking.js:110-123 | the outcome is `Price`; on success only that row's total price changes (the row stands for the loaded instance) |
| Bookings.BookingTable.Cancel | backend/src/models/Booking.js:47-50 | only the status of the booking with that id becomes cancelled; the invariant is kept |
| Bookings.BookingTable.SetPaymentStatus | backend/src/models/Payment.js:80-84 | only the payment status of the booking with that id changes |
| Payments.Violations | backend/src/models/Payment.js:20-50 | no message iff the amount is present and ≥ 0, the method is present and the refunded amount is ≥ 0 |
| Payments.NewPayment | backend/src/models/Payment.js:20-50 | creation succeeds iff the validators pass; defaults are status pending and refunded amount 0 |
| Payments.StatusAfterPayment | backend/src/models/Payment.js:73-83 | a completed payment equal to the total completes the booking, a smaller one makes it partial; otherwise, or with no total, the status is unchanged |
| Payments.AfterCreate | backend/src/models/Payment.js:71-87 | only the paid booking's payment status can change, and only to `StatusAfterPayment`; other payments change nothing |
| Payments.AfterUpdate | backend/src/models/Payment.js:88-99 | a change of status to refunded marks the booking refunded; any other update changes no booking |
| Payments.PaymentsAreNotSummed | backend/src/models/Payment.js:79-83 | payments of 40 then 60 on a booking of 100 leave it partial, because each payment is compared alone |
| Payments.RefundOf | backend/src/models/Payment.js:107 | a missing or zero amount refunds the full payment, any other amount is taken as given |
| Payments.Refund | backend/src/models/Payment.js:105-111 | the saved row has the refunded amount, the refund date and status refunded; it fails validation iff the refund is negative |
| Payments.RefundMayExceedAmount | backend/src/models/Payment.js:107 | a refund larger than the payment is accepted |
| Payments.FindByBooking | backend/src/models/Payment.js:114-119 | exactly that booking's payments, each as often as in the table, newest first |
| Payments.FindByUser | backend/src/models/Payment.js:121-139 | exactly the payments of the user's bookings, each as often as in the table, newest first |
| Payments.PaymentTable.Create | backend/src/models/Payment.js:71-87 | the row is `NewPayment`; on success it is stored under a fresh id, the id counter advances and the bookings become `AfterCreate` of the old bookings; otherwise nothing changes |
| Payments.PaymentTable.UpdateStatus | backend/src/models/Payment.js:88-99 | only the payment's status changes, and the bookings become `AfterUpdate` |
| Payments.PaymentTable.ProcessRefund | backend/src/models/Payment.js:105-111 | the outcome is `Refund`; on success the row is replaced and the bookings become `AfterUpdate` |
| Studios.Build | backend/src/models/Studio.js:12-44 | creation succeeds iff name and rate are given, and each missing one has its message; the studio is active and has an empty feature list by default |
| Studios.FindByPk | backend/src/models/Studio.js:46-49 | finds a non-deleted studio with that id, and none only when every studio with that id is deleted |
| Studios.SoftDelete | backend/src/controllers/studioController.js:206-207 | destroying marks the row deleted and changes nothing else |
| Studios.FindAvailable | backend/src/models/Studio.js:53-61 | exactly the active, non-deleted studios, each as often as in the table |
| Studios.FindAvailableIgnoresTimes | backend/src/models/Studio.js:53-61 | the requested interval does not influence the answer |
| StudioController.NameAscOrder | backend/src/controllers/studioController.js:33 | ordering by name is a total preorder |
| StudioController.BookedStudioIds | backend/src/controllers/studioController.js:51-79 | an id is booked iff some live booking of that studio passes the three-way test; bookings of every studio are queried |
| StudioController.Catalogue | backend/src/controllers/studioController.js:13-44 | the studios found by the rate bounds, then kept by the feature filter (off for an empty text): exactly the matching rows, each as often as in the table, sorted by name |
| StudioController.GetStudios | backend/src/controllers/studioController.js:9-88 | a studio is listed iff it is active, not deleted, within both inclusive rate bounds, has every requested feature (NULL counts as none; an empty feature text requests none), and, when availability is asked with both times, has no clashing booking; each listed studio appears as often as in the table; the list is sorted by name |
| StudioController.FeatureListRoundTrip | backend/src/controllers/studioController.js:38-43 | asking for comma-joined, comma-free feature names (not the single empty name) lists a studio iff it passes the other filters and has every one of those names |
| StudioController.GetStudioById | backend/src/controllers/studioController.js:95-106 | 404 iff no live studio has the id; otherwise that studio with exactly its non-deleted equipment, each item as often as in the table |
| StudioController.Merge | backend/src/controllers/studioController.js:161-168 | a field is replaced only by a truthy value (non-empty text, non-zero number, any array); isActive is replaced whenever given; id and deletion are kept |
| StudioController.FalsyPatchKeepsStudio | backend/src/controllers/studioController.js:161-168 | empty strings and zeros change nothing, while `isActive: false` deactivates |
| StudioController.MergeIdempotent | backend/src/controllers/studioController.js:161-168 | applying an update twice is applying it once |
| StudioController.IndexOfStudio | backend/src/controllers/studioController.js:143 | the table lookup agrees with `findByPk`: found exactly when a live studio has the id |
| StudioController.StudioTable.Create | backend/src/controllers/studioController.js:113-135 | the outcome is `Build` with the next id; on success the row is stored under an id no stored studio has and the counter advances, otherwise nothing changes |
| StudioController.StudioTable.Update | backend/src/controllers/studioController.js:142-173 | 404 and no change for an unknown studio; otherwise only that row becomes `Merge` of it and is returned; the id counter and the table invariant are kept |
| StudioController.StudioTable.Delete | backend/src/controllers/studioController.js:180-210 | 404 for an unknown studio; 400 and no change while a non-cancelled, non-completed booking starts now or later; otherwise only that row is soft-deleted; the id counter and the table invariant are kept on every path |
| StudioController.Slots | backend/src/controllers/studioController.js:264-269 | each booking is projected to its id, times and status, in the same order |
| StudioController.SlotsMembers | backend/src/controllers/studioController.js:264-269 | a slot is in the projection iff it is the slot of one of the bookings |
| StudioController.BookingsDuring | backend/src/controllers/studioController.js:235-261 | exactly the studio's live bookings passing the three-way test, each as often as in the table, earliest first |
| StudioController.GetStudioAvailability | backend/src/controllers/studioController.js:217-272 | 400 without both dates, 400 when start ≥ end; otherwise a slot is listed iff it is a live booking of the studio passing the test, in start order, and the slots are those of `BookingsDuring`, one per booking |
| Inventory.NewEquipment | backend/src/models/Equipment.js:20-39 | creation succeeds iff a name is given and the quantity is not negative; the row carries the given id, studio, name and category; quantity and status are as given, or 1 and available by default |
| Inventory.FindAvailable | backend/src/models/Equipment.js:93-103 | exactly the studio's available, in-stock, non-deleted items, each as often as in the table |
| Inventory.FindByCategory | backend/src/models/Equipment.js:105-114 | exactly the in-stock, non-deleted items of the category, whatever their studio or status, each as often as in the table |
| Inventory.AvailableIsInStock | backend/src/models/Equipment.js:93-114 | every available item is also found by its category |
| Inventory.EquipmentTable.Create | backend/src/models/Equipment.js:20-39 | the outcome is `NewEquipment` with the next id; on success the row is stored under an id no stored item has, the counter advances and quantities stay non-negative; otherwise nothing changes |
| Inventory.EquipmentTable.MarkAsInUse | backend/src/models/Equipment.js:76-79 | only that row's status becomes in-use; the id counter is kept |
| Inventory.EquipmentTable.MarkAsAvailable | backend/src/models/Equipment.js:81-84 | only that row's status becomes available; the id counter is kept |
| Inventory.EquipmentTable.MarkForMaintenance | backend/src/models/Equipment.js:86-90 | only that row's status becomes maintenance and its maintenance date becomes now; the id counter is kept |
| Notifications.NewNotification | backend/src/models/Notification.js:12-59 | creation succeeds iff user, title and content are given, each missing one with its message; unread, unsent, general, in-app and sent now by default |
| Notifications.UserFeed | backend/src/models/Notification.js:86-94 | exactly the user's notifications (unread only unless read are included), latest first |
| Notifications.FindByUser | backend/src/models/Notification.js:83-98 | the page at `offset` of at most `limit` rows of the feed, with defaults 20, 0 and unread only |
| Notifications.FindByBooking | backend/src/models/Notification.js:100-105 | exactly the booking's notifications, each as often as in the table, latest first |
| Notifications.ReadAll | backend/src/models/Notification.js:107-117 | every row of the user becomes read and every other row is unchanged |
| Notifications.ReadAllEmptiesUnreadFeed | backend/src/models/Notification.js:107-117 | after marking all read, the user's unread feed is empty |
| Notifications.ReadAllKeepsOtherRows | backend/src/models/Notification.js:107-117 | the rows another user's feed selects are the same, in the same order, after one user's notifications are marked read |
| Notifications.ReadAllKeepsOtherFeeds | backend/src/models/Notification.js:107-117 | marking one user's notifications read leaves every other user's feed equal: the same rows, as often, in the same order |
| Notifications.BookingNotice | backend/src/models/Notification.js:120-157 | for the booking's owner, an all-channels notice with the kind's type and title; a missing studio makes the builder throw |
| Notifications.PaymentConfirmation | backend/src/models/Notification.js:159-168 | always builds a "Payment Received" payment notice for the booking's owner carrying the amount |
| Notifications.IndexOfNotification | backend/src/controllers/notificationController.js:43 | finds the notification with that id, and nothing only when none has it |
| Notifications.NotificationTable.Create | backend/src/models/Notification.js:4-64 | the outcome is `NewNotification` with the next id, stored on success |
| Notifications.NotificationTable.CreateBookingNotice | backend/src/models/Notification.js:120-157 | the outcome is `BookingNotice`, stored on success |
| Notifications.NotificationTable.CreatePaymentConfirmation | backend/src/models/Notification.js:159-168 | the outcome is `PaymentConfirmation`, always stored |
| Notifications.NotificationTable.MarkAsRead | backend/src/models/Notification.js:67-70 | only that row becomes read |
| Notifications.NotificationTable.MarkAsEmailSent | backend/src/models/Notification.js:72-75 | only that row's email flag is set |
| Notifications.NotificationTable.MarkAsSmsSent | backend/src/models/Notification.js:77-80 | only that row's SMS flag is set |
| Notifications.NotificationTable.MarkAllAsRead | backend/src/models/Notification.js:107-117 | the rows become `ReadAll` of the old rows |
| Notifications.NotificationTable.Delete | backend/src/controllers/notificationController.js:92 | the row is removed and the others keep their order |
| NotificationController.PageNumber | backend/src/controllers/notificationController.js:10 | the page is at least 1, and a non-zero number is taken as given |
| NotificationController.PageSize | backend/src/controllers/notificationController.js:11 | the limit is at least 1, and a non-zero number is taken as given |
| NotificationController.PageCount | backend/src/controllers/notificationController.js:32 | the fewest pages of `limit` rows that hold `total` rows |
| NotificationController.GetUserNotifications | backend/src/controllers/notificationController.js:9-35 | the total counts exactly the selected rows, pages is their page count, and the rows are the requested page of the feed |
| NotificationController.PageOfRow | backend/src/controllers/notificationController.js:10-12 | row k of the feed is at position k mod limit of page k div limit + 1 |
| NotificationController.PageWithinCount | backend/src/controllers/notificationController.js:29-34 | a page whose first row exists is within the reported page count |
| NotificationController.EveryFeedRowIsOnAPage | backend/src/controllers/notificationController.js:9-35 | every row of the feed is returned on a page within the reported count |
| NotificationController.Owned | backend/src/controllers/notificationController.js:43-54 | 404 iff no notification has the id, 403 iff it belongs to another user, otherwise the user's own row |
| NotificationController.MarkNotificationAsRead | backend/src/controllers/notificationController.js:42-60 | the refusal of `Owned` with no change, or only that row becomes read; the id counter is kept |
| NotificationController.MarkAllNotificationsAsRead | backend/src/controllers/notificationController.js:67-71 | the rows become `ReadAll` for the user; the id counter is kept |
| NotificationController.DeleteNotification | backend/src/controllers/notificationController.js:78-95 | the refusal of `Owned` with no change, or only that row is removed; the id counter is kept |
| NotificationController.CreateNotification | backend/src/controllers/notificationController.js:102-115 | the outcome is `NewNotification` of the body, with type general and in-app delivery when absent; the id counter advances only on success |
| Users.IndexById | backend/src/middleware/authMiddleware.js:25-27 | finds the user with that id, and nothing only when none has it |
| Users.IndexByEmail | backend/src/controllers/authController.js:24 | finds the user with that email, and nothing only when none has it |
| AuthMiddleware.TokenOf | backend/src/middleware/authMiddleware.js:19 | a token exists iff the header has a second space-separated piece, and it contains no space |
| AuthMiddleware.Protect | backend/src/middleware/authMiddleware.js:9-50 | no Bearer header gives 401 "no token"; passes iff the token is non-empty, verifies and names an active user; every other refusal is 401 "token failed" |
| AuthMiddleware.BearerFailuresLookAlike | backend/src/middleware/authMiddleware.js:40-43 | with a Bearer header every refusal carries the same message |
| AuthMiddleware.BearerHeaderCarriesToken | backend/src/middleware/authMiddleware.js:13-22 | "Bearer " plus a space-free token hands exactly that token to verification |
| AuthMiddleware.ProtectRequest | backend/src/middleware/authMiddleware.js:17-43 | the outcome is `Protect`; `req.user` is set to the lookup result once the token verifies, even when the user is then refused |
| AuthMiddleware.RequireAdmin | backend/src/middleware/authMiddleware.js:55-62 | passes iff the user is an admin, else 403 |
| AuthMiddleware.RequireStaff | backend/src/middleware/authMiddleware.js:67-74 | passes iff the user is staff or admin, else 403 |
| AuthMiddleware.RequireOwnerOrAdmin | backend/src/middleware/authMiddleware.js:79-91 | passes iff the user owns the route's user id (or the body's when the route has none), or is an admin, else 403 |
| AuthMiddleware.AdminIsStrongest | backend/src/middleware/authMiddleware.js:55-91 | an admin passes the staff and owner checks |
| AuthController.Registration | backend/src/controllers/authController.js:24-39 | refused with 400 iff the email is taken; otherwise an active client with the given email and password |
| AuthController.RegistrationKeepsEmailsUnique | backend/src/controllers/authController.js:24-29 | registering never creates a second account for an address |
| AuthController.Login | backend/src/controllers/authController.js:69-103 | unknown email, then inactive account, then wrong password, each 401 in that order; otherwise the user's data and a token |
| AuthController.LoginHidesUnknownEmail | backend/src/controllers/authController.js:73-92 | a wrong password and an unknown address give the same answer |
| AuthController.MergeProfile | backend/src/controllers/authController.js:135-143 | email, names and phone are replaced only by non-empty values, and the password only when one is given; role, activity and reset fields are kept |
| AuthController.ProfileUpdateCannotEscalate | backend/src/controllers/authController.js:135-143 | an update keeps the role and activity; empty strings change nothing; the update is idempotent |
| AuthController.IssueReset | backend/src/controllers/authController.js:177-183 | the stored digest is the given one and the expiry is now plus one hour; nothing else changes |
| AuthController.ClearReset | backend/src/controllers/authController.js:201-202 | both reset fields are emptied and nothing else changes |
| AuthController.ResetHolder | backend/src/controllers/authController.js:223-228 | finds a user holding the digest with expiry after now, and none iff no user does |
| AuthController.ResetTokenLivesOneHour | backend/src/controllers/authController.js:174-228 | a freshly issued token is accepted exactly while less than an hour has passed |
| AuthController.ResetTokenSingleUse | backend/src/controllers/authController.js:235-239 | once used, a token is no longer accepted |
| AuthController.UserTable.Register | backend/src/controllers/authController.js:20-62 | the outcome follows `Registration`; the account is kept even when the welcome e-mail then fails; email uniqueness is preserved |
| AuthController.UserTable.UpdateProfile | backend/src/controllers/authController.js:126-156 | 404 for an unknown user; otherwise the row becomes `MergeProfile` of it |
| AuthController.UserTable.ForgotPassword | backend/src/controllers/authController.js:163-209 | 404 for an unknown address; otherwise the reset is issued, and cleared again with 500 when the e-mail fails |
| AuthController.UserTable.ResetPassword | backend/src/controllers/authController.js:216-242 | 400 with no change when no user holds a live token; otherwise that user gets the new password and loses the token |
| ErrorMiddleware.ErrorHandler | backend/src/middleware/errorMiddleware.js:4-45 | an unset status becomes 500; validation gives 400 with the messages joined by ", "; unique 409, foreign key 400, JWT 401 and expired 401, each with its message; the stack is hidden in production |
| ErrorMiddleware.AdmissionFailuresAsResponses | backend/src/middleware/errorMiddleware.js:5-12 | a reversed booking interval reaches the client as 400 with the validator's message, a clash as 500 |
| NotFoundMiddleware.NotFound | backend/src/middleware/notFoundMiddleware.js:4-8 | sets the status to 404 and forwards "Resource not found - " plus the URL |
| NotFoundMiddleware.UnknownRouteAnswers404 | backend/src/middleware/notFoundMiddleware.js:5-7 | the handler answers the forwarded error with 404 and a message ending in the URL |
| NotFoundMiddleware.NotFoundThenHandler | backend/src/middleware/notFoundMiddleware.js:4-8 | the two middlewares in sequence answer 404 with that message |

## Left out

- Express and ORM wiring: routing, `res.json`, `asyncHandler`, `next()` chaining, associations, and the server setup in `backend/src/index.js` and `backend/src/models/index.js`.
- Concurrency: the overlap check is a separate query before the insert, with no transaction. Admission is modelled sequentially, and the no-overlap invariant is not claimed under interleaving.
- Query operators: `sequelize.Op` is read off the database instance throughout. `backend/src/config/database.js` is not part of this model. The intended Sequelize operators are modelled.
- AuthController.UserTable.ResetPassword: `backend/src/controllers/authController.js:226` uses `sequelize`, which that file never imports. The intended comparison is modelled, not the runtime failure.
- The User model file is not part of this model. Its column checks, password hashing hooks, `findByEmail`, `matchPassword` and any database unique index on email are outside it. The model assumes lookups return the first row with the key and that new accounts are active.
- Crypto, JWT and e-mail are parameters:
  - `verify`, `sign`, `hash` and `matches` are opaque functions;
  - a sent e-mail is a boolean outcome, or the error it threw;
  - token randomness is an argument.
- Floating point and dates:
  - DECIMAL columns and `parseFloat` are exact `real`s;
  - `Date` parsing, locale formatting and NaN are not modelled;
  - query numbers arrive already parsed, with NaN or absence as None.
- NotificationController.GetUserNotifications: negative `page` or `limit` values are not modelled, because the database's answer to a negative offset or limit is outside the code.
- NotificationController.PageNumber: the query number is a `nat`, so the negative results of `parseInt(page) || 1` cannot arise.
- NotificationController.PageSize: the query number is a `nat`, so the negative results of `parseInt(limit) || 20` cannot arise.
- Bookings.Admission: the foreign-key refusal is not modelled. A booking whose user or studio names no row is admitted here, although the database would refuse it with a foreign-key error, which the error handler answers with 400.
- Payments.PaymentTable.Create: the foreign-key refusal is not modelled. A payment whose booking names no row is stored here, although the database would refuse it with a foreign-key error.
- Bookings.BookingTable.CalculatePrice: the table row stands for the loaded booking instance. The source sets `totalPrice` on that instance without saving it, so persisting the price is up to the caller, and no modelled handler calls it.
- Notification content text: the templates are kept as the data they are filled with (studio name, start time, amount, booking id). The wording, the `toLocaleString` date format and the eight-character id prefix are not modelled.
- Booking status transitions (confirm, complete, who may cancel) are not in the modelled files. Only "set status to cancelled" is included, to show that the invariant survives it.
- Payments are not summed, and refunds have no upper bound. The model states both as the code has them (`PaymentsAreNotSummed`, `RefundMayExceedAmount`).
- Bookings are a paranoid table, but no modelled operation deletes one, so bookings carry no deleted flag.
- `getUserProfile` only echoes `req.user` and has no logic of its own.
- Hidden columns that no rule reads (brand, serial number, receipt URL, transaction ids and the like) are left out of the rows.
- AuthController.UserTable.UpdateProfile: an address already used by another user is not refused. Any such refusal would come from the database, which is not part of this model.
- Strings are compared code point by code point. Database collation is not modelled.
- Explicit `null` in request bodies is treated like an absent field.
- Inputs outside the enums (an unknown status or role text) are not representable.
- Console logging of errors is not modelled.
