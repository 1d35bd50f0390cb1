/** The Notification model: creation defaults, the three delivery flags,
    the per-user and per-booking queries, "mark all as read", and the four
    notices built from a booking or a payment.
 */
module Notifications {

  import opened Wrappers
  import opened Seqs
  import opened Studios
  import opened Bookings
  import opened Payments

  datatype NotificationType = Confirmation | Reminder | Cancellation | PaymentNotice | General
  datatype DeliveryMethod = InApp | Email | Sms | All

  /** The `content` column. Free text as given, or the data a notice
      template is filled with (the wording and the date formatting of the
      templates are not part of this model). */
  datatype Content =
    | Text(text: string)
    | BookingText(kind: NotificationType, studioName: string, startTime: int)
    | PaymentText(amount: real, bookingId: nat)

  datatype Notification = Notification(
    id: nat,
    userId: nat,
    bookingId: Option<nat>,
    kind: NotificationType,
    title: string,
    content: Content,
    isRead: bool,
    sentAt: int,
    deliveryMethod: DeliveryMethod,
    emailSent: bool,
    smsSent: bool)

  /** The attributes given to `Notification.create`; None is an absent attribute. */
  datatype NotificationInput = NotificationInput(
    userId: Option<nat>,
    bookingId: Option<nat>,
    kind: Option<NotificationType>,
    title: Option<string>,
    content: Option<Content>,
    deliveryMethod: Option<DeliveryMethod>)

  const UserIdNull := "Notification.userId cannot be null"
  const TitleNull := "Notification.title cannot be null"
  const ContentNull := "Notification.content cannot be null"

  /** The not-null checks that fail, in field order. */
  function Violations(input: NotificationInput): seq<string>
  {
    (if input.userId.None? then [UserIdNull] else [])
    + (if input.title.None? then [TitleNull] else [])
    + (if input.content.None? then [ContentNull] else [])
  }

  /** `Notification.create` at time `now`: user, title and content are
      required; an unread, unsent, `general`, `in-app` notification sent now
      by default. */
  function NewNotification(input: NotificationInput, id: nat, now: int): (r: Result<Notification>)
    ensures r.Ok? <==> input.userId.Some? && input.title.Some? && input.content.Some?
    ensures r.Err? ==>
              && r.status == StatusUnset && r.error.name.SequelizeValidationError?
              && (UserIdNull in r.error.name.messages <==> input.userId.None?)
              && (TitleNull in r.error.name.messages <==> input.title.None?)
              && (ContentNull in r.error.name.messages <==> input.content.None?)
    ensures r.Ok? ==>
              var n := r.value;
              && n.id == id && n.userId == input.userId.value && n.bookingId == input.bookingId
              && n.title == input.title.value && n.content == input.content.value
              && !n.isRead && !n.emailSent && !n.smsSent && n.sentAt == now
              && n.kind == (if input.kind.Some? then input.kind.value else General)
              && n.deliveryMethod == (if input.deliveryMethod.Some? then input.deliveryMethod.value else InApp)
  {
    var missing := Violations(input);
    if missing != [] then Invalid(missing)
    else
      Ok(Notification(id, input.userId.value, input.bookingId,
                      if input.kind.Some? then input.kind.value else General,
                      input.title.value, input.content.value, false, now,
                      if input.deliveryMethod.Some? then input.deliveryMethod.value else InApp,
                      false, false))
  }

  // ---------------------------------------------------------------------------
  // Queries

  /** `ORDER BY sentAt DESC`. */
  predicate SentDesc(a: Notification, b: Notification) { a.sentAt >= b.sentAt }

  lemma SentDescOrder()
    ensures TotalPreorder(SentDesc)
  {
  }

  /** The options of `findByUser`; None takes the default (20, 0, false). */
  datatype FindOptions = FindOptions(limit: Option<nat>, offset: Option<nat>, includeRead: Option<bool>)

  function LimitOf(o: FindOptions): nat { if o.limit.Some? then o.limit.value else 20 }
  function OffsetOf(o: FindOptions): nat { if o.offset.Some? then o.offset.value else 0 }
  function IncludeReadOf(o: FindOptions): bool { o.includeRead.Some? && o.includeRead.value }

  /** The rows `findByUser` and the controller's `count` select: the user's
      notifications, unread ones only unless read ones are included. */
  predicate Selected(n: Notification, userId: nat, includeRead: bool)
  {
    n.userId == userId && (includeRead || !n.isRead)
  }

  /** All the selected rows, latest first, before the page is cut. */
  function UserFeed(rows: seq<Notification>, userId: nat, includeRead: bool): (r: seq<Notification>)
    ensures Sorted(r, SentDesc)
    ensures multiset(r) == multiset(Filter(rows, (n: Notification) => Selected(n, userId, includeRead)))
    ensures forall n :: n in r <==> n in rows && Selected(n, userId, includeRead)
  {
    SentDescOrder();
    var found := Filter(rows, (n: Notification) => Selected(n, userId, includeRead));
    SortByMembers(found, SentDesc);
    SortBy(found, SentDesc)
  }

  /** `Notification.findByUser`: one page of the user's feed. */
  function FindByUser(rows: seq<Notification>, userId: nat, o: FindOptions): (r: seq<Notification>)
    ensures |r| <= LimitOf(o)
    ensures Sorted(r, SentDesc)
    ensures forall n :: n in r ==> n in rows && Selected(n, userId, IncludeReadOf(o))
    ensures r == Page(UserFeed(rows, userId, IncludeReadOf(o)), OffsetOf(o), LimitOf(o))
  {
    var feed := UserFeed(rows, userId, IncludeReadOf(o));
    PageKeepsSorted(feed, OffsetOf(o), LimitOf(o), SentDesc);
    Page(feed, OffsetOf(o), LimitOf(o))
  }

  /** `Notification.findByBooking`: the booking's notifications, latest first. */
  function FindByBooking(rows: seq<Notification>, bookingId: nat): (r: seq<Notification>)
    ensures Sorted(r, SentDesc)
    ensures forall n :: n in r <==> n in rows && n.bookingId == Some(bookingId)
    ensures forall n :: multiset(r)[n] == if n.bookingId == Some(bookingId) then multiset(rows)[n] else 0
  {
    SentDescOrder();
    var keep := (n: Notification) => n.bookingId == Some(bookingId);
    FilterCounts(rows, keep);
    var found := Filter(rows, keep);
    SortByMembers(found, SentDesc);
    SortBy(found, SentDesc)
  }

  /** The table after `Notification.markAllAsRead(userId)`: every row of
      that user is read, every other row is as it was. */
  function ReadAll(rows: seq<Notification>, userId: nat): (r: seq<Notification>)
    ensures |r| == |rows|
    ensures forall i :: 0 <= i < |rows| ==>
              if rows[i].userId == userId then r[i] == rows[i].(isRead := true) else r[i] == rows[i]
  {
    seq(|rows|, i requires 0 <= i < |rows| => if rows[i].userId == userId then rows[i].(isRead := true) else rows[i])
  }

  /** After "mark all as read" the user has no unread notification left. */
  lemma {:induction false} ReadAllEmptiesUnreadFeed(rows: seq<Notification>, userId: nat)
    ensures UserFeed(ReadAll(rows, userId), userId, false) == []
  {
    var after := ReadAll(rows, userId);
    assert forall i :: 0 <= i < |after| ==> !Selected(after[i], userId, false);
    assert |multiset(UserFeed(after, userId, false))| == 0;
  }

  /** "Mark all as read" for one user keeps the rows any other user's feed
      selects, in the same order. */
  lemma {:induction false} ReadAllKeepsOtherRows(rows: seq<Notification>, userId: nat, other: nat, includeRead: bool)
    requires other != userId
    ensures Filter(ReadAll(rows, userId), (n: Notification) => Selected(n, other, includeRead))
            == Filter(rows, (n: Notification) => Selected(n, other, includeRead))
  {
    if rows != [] {
      ReadAllKeepsOtherRows(rows[1..], userId, other, includeRead);
      assert ReadAll(rows, userId)[1..] == ReadAll(rows[1..], userId);
    }
  }

  /** "Mark all as read" for one user leaves every other user's feed as it was. */
  lemma ReadAllKeepsOtherFeeds(rows: seq<Notification>, userId: nat, other: nat, includeRead: bool)
    requires other != userId
    ensures UserFeed(ReadAll(rows, userId), other, includeRead) == UserFeed(rows, other, includeRead)
  {
    ReadAllKeepsOtherRows(rows, userId, other, includeRead);
  }

  // ---------------------------------------------------------------------------
  // Notices built from bookings and payments

  /** The booking notices: `createBookingConfirmation`, `createBookingReminder`,
      `createBookingCancellation`. */
  datatype BookingNoticeKind = ConfirmationNotice | ReminderNotice | CancellationNotice

  function NoticeType(k: BookingNoticeKind): NotificationType
  {
    match k
    case ConfirmationNotice => Confirmation
    case ReminderNotice => Reminder
    case CancellationNotice => Cancellation
  }

  function NoticeTitle(k: BookingNoticeKind): string
  {
    match k
    case ConfirmationNotice => "Booking Confirmed"
    case ReminderNotice => "Upcoming Booking Reminder"
    case CancellationNotice => "Booking Cancelled"
  }

  const PaymentTitle := "Payment Received"

  /** Reading `name` of the missing studio throws a TypeError, with no status set. */
  const StudioNameOfNull := "Cannot read properties of null (reading 'name')"

  /** A booking notice: looks the studio up and creates an `all`-channels
      notification of the notice's type for the booking's owner. A studio
      that is missing or deleted makes the builder throw. */
  function BookingNotice(k: BookingNoticeKind, b: Booking, studios: seq<Studio>, id: nat, now: int)
    : (r: Result<Notification>)
    ensures r.Err? <==> FindByPk(studios, b.studioId).None?
    ensures r.Err? ==> r == Fail(StatusUnset, StudioNameOfNull)
    ensures r.Ok? ==>
              var n := r.value;
              && n.userId == b.userId && n.bookingId == Some(b.id)
              && n.kind == NoticeType(k) && n.title == NoticeTitle(k) && n.deliveryMethod == All
              && n.content == BookingText(NoticeType(k), FindByPk(studios, b.studioId).value.name, b.startTime)
              && !n.isRead && !n.emailSent && !n.smsSent && n.sentAt == now
  {
    match FindByPk(studios, b.studioId)
    case None => Fail(StatusUnset, StudioNameOfNull)
    case Some(s) =>
      NewNotification(NotificationInput(Some(b.userId), Some(b.id), Some(NoticeType(k)), Some(NoticeTitle(k)),
                                        Some(BookingText(NoticeType(k), s.name, b.startTime)), Some(All)), id, now)
  }

  /** `createPaymentConfirmation`: a `payment` notice for the booking's owner. */
  function PaymentConfirmation(p: Payment, b: Booking, id: nat, now: int): (r: Result<Notification>)
    ensures r.Ok?
    ensures r.value.userId == b.userId && r.value.bookingId == Some(b.id)
    ensures r.value.kind == PaymentNotice && r.value.title == PaymentTitle && r.value.deliveryMethod == All
    ensures r.value.content == PaymentText(p.amount, b.id)
  {
    NewNotification(NotificationInput(Some(b.userId), Some(b.id), Some(PaymentNotice), Some(PaymentTitle),
                                      Some(PaymentText(p.amount, b.id)), Some(All)), id, now)
  }

  /** `findByPk` in the notification table. */
  function IndexOfNotification(rows: seq<Notification>, id: nat): (r: Option<nat>)
    ensures r.Some? ==> r.value < |rows| && rows[r.value].id == id
    ensures r.None? <==> forall n :: n in rows ==> n.id != id
  {
    FirstIndex(rows, (n: Notification) => n.id == id)
  }

  class NotificationTable {
    var rows: seq<Notification>
    var nextId: nat

    /** Ids are distinct and below the next one handed out. */
    ghost predicate Valid()
      reads this
    {
      && (forall i :: 0 <= i < |rows| ==> rows[i].id < nextId)
      && (forall i, j :: 0 <= i < j < |rows| ==> rows[i].id != rows[j].id)
    }

    constructor ()
      ensures Valid() && rows == [] && nextId == 0
    {
      rows := [];
      nextId := 0;
    }

    /** Stores a built notification under the next id. */
    method Store(r: Result<Notification>)
      requires Valid()
      requires r.Ok? ==> r.value.id == nextId
      modifies this
      ensures Valid()
      ensures r.Ok? ==> rows == old(rows) + [r.value] && nextId == old(nextId) + 1
      ensures r.Err? ==> rows == old(rows) && nextId == old(nextId)
    {
      if r.Ok? {
        rows := rows + [r.value];
        nextId := nextId + 1;
      }
    }

    /** `Notification.create` at time `now`. */
    method Create(input: NotificationInput, now: int) returns (r: Result<Notification>)
      requires Valid()
      modifies this
      ensures Valid()
      ensures r == NewNotification(input, old(nextId), now)
      ensures r.Ok? ==> rows == old(rows) + [r.value] && nextId == old(nextId) + 1
      ensures r.Err? ==> rows == old(rows) && nextId == old(nextId)
    {
      r := NewNotification(input, nextId, now);
      Store(r);
    }

    /** One of the three booking notice builders. */
    method CreateBookingNotice(k: BookingNoticeKind, b: Booking, studios: seq<Studio>, now: int)
      returns (r: Result<Notification>)
      requires Valid()
      modifies this
      ensures Valid()
      ensures r == BookingNotice(k, b, studios, old(nextId), now)
      ensures r.Ok? ==> rows == old(rows) + [r.value] && nextId == old(nextId) + 1
      ensures r.Err? ==> rows == old(rows) && nextId == old(nextId)
    {
      r := BookingNotice(k, b, studios, nextId, now);
      Store(r);
    }

    /** `Notification.createPaymentConfirmation`. */
    method CreatePaymentConfirmation(p: Payment, b: Booking, now: int) returns (r: Result<Notification>)
      requires Valid()
      modifies this
      ensures Valid()
      ensures r == PaymentConfirmation(p, b, old(nextId), now)
      ensures rows == old(rows) + [r.value] && nextId == old(nextId) + 1
    {
      r := PaymentConfirmation(p, b, nextId, now);
      Store(r);
    }

    /** `markAsRead` on the row at `i`. */
    method MarkAsRead(i: nat)
      requires Valid() && i < |rows|
      modifies this
      ensures Valid() && nextId == old(nextId)
      ensures rows == old(rows)[i := old(rows[i]).(isRead := true)]
    {
      rows := rows[i := rows[i].(isRead := true)];
    }

    /** `markAsEmailSent` on the row at `i`. */
    method MarkAsEmailSent(i: nat)
      requires Valid() && i < |rows|
      modifies this
      ensures Valid() && nextId == old(nextId)
      ensures rows == old(rows)[i := old(rows[i]).(emailSent := true)]
    {
      rows := rows[i := rows[i].(emailSent := true)];
    }

    /** `markAsSmsSent` on the row at `i`. */
    method MarkAsSmsSent(i: nat)
      requires Valid() && i < |rows|
      modifies this
      ensures Valid() && nextId == old(nextId)
      ensures rows == old(rows)[i := old(rows[i]).(smsSent := true)]
    {
      rows := rows[i := rows[i].(smsSent := true)];
    }

    /** `Notification.markAllAsRead(userId)`: one bulk update. */
    method MarkAllAsRead(userId: nat)
      requires Valid()
      modifies this
      ensures Valid() && nextId == old(nextId)
      ensures rows == ReadAll(old(rows), userId)
    {
      rows := ReadAll(rows, userId);
    }

    /** `notification.destroy()`: the table is not paranoid, the row goes. */
    method Delete(i: nat)
      requires Valid() && i < |rows|
      modifies this
      ensures Valid() && nextId == old(nextId)
      ensures rows == old(rows)[..i] + old(rows)[i + 1..]
    {
      rows := rows[..i] + rows[i + 1..];
    }
  }
}
