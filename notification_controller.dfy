/** The notification controller: the paginated feed of the signed-in user,
    marking one or all notifications read, deleting one, and creating one.
 */
module NotificationController {

  import opened Wrappers
  import opened Seqs
  import opened Notifications

  const NotFound := "Notification not found"
  const NotOwner := "Not authorized to access this notification"
  const MarkedRead := "Notification marked as read"
  const AllMarkedRead := "All notifications marked as read"
  const Removed := "Notification removed"

  /** The query of `GET /api/notifications`. `page` and `limit` are what
      `parseInt` gives, None when it gives NaN; `includeRead` is the raw text. */
  datatype FeedQuery = FeedQuery(page: Option<nat>, limit: Option<nat>, includeRead: Option<string>)

  /** `parseInt(page) || 1`: NaN and 0 fall back to the first page. */
  function PageNumber(q: FeedQuery): (p: nat)
    ensures p >= 1
    ensures q.page.Some? && q.page.value != 0 ==> p == q.page.value
  {
    if q.page.Some? && q.page.value != 0 then q.page.value else 1
  }

  /** `parseInt(limit) || 20`: NaN and 0 fall back to twenty per page. */
  function PageSize(q: FeedQuery): (l: nat)
    ensures l >= 1
    ensures q.limit.Some? && q.limit.value != 0 ==> l == q.limit.value
  {
    if q.limit.Some? && q.limit.value != 0 then q.limit.value else 20
  }

  /** `Math.ceil(count / limit)`: the fewest pages of `limit` rows that hold `total` rows. */
  function PageCount(total: nat, limit: nat): (pages: nat)
    requires limit > 0
    ensures pages * limit >= total
    ensures pages > 0 ==> (pages - 1) * limit < total
  {
    (total + limit - 1) / limit
  }

  /** The response body of `getUserNotifications`. */
  datatype FeedPage = FeedPage(notifications: seq<Notification>, page: nat, pages: nat, total: nat)

  /** `getUserNotifications`: the requested page of the user's feed, the
      number of selected rows and the number of pages they fill. */
  function GetUserNotifications(rows: seq<Notification>, userId: nat, q: FeedQuery): (r: FeedPage)
    ensures var includeRead := q.includeRead == Some("true");
            && r.page == PageNumber(q)
            && r.total == |Filter(rows, (n: Notification) => Selected(n, userId, includeRead))|
            && r.total == |UserFeed(rows, userId, includeRead)|
            && r.pages == PageCount(r.total, PageSize(q))
            && r.notifications == Page(UserFeed(rows, userId, includeRead), Offset(r.page, PageSize(q)), PageSize(q))
  {
    var page := PageNumber(q);
    var limit := PageSize(q);
    var includeRead := q.includeRead == Some("true");
    var found := FindByUser(rows, userId, FindOptions(Some(limit), Some(Offset(page, limit)), Some(includeRead)));
    var count := |Filter(rows, (n: Notification) => Selected(n, userId, includeRead))|;
    assert |multiset(UserFeed(rows, userId, includeRead))| == count;
    FeedPage(found, page, PageCount(count, limit), count)
  }

  /** `(page - 1) * limit`. */
  function Offset(page: nat, limit: nat): nat
    requires page >= 1
  {
    (page - 1) * limit
  }

  lemma MulMonotonic(a: nat, b: nat, c: nat)
    requires a <= b
    ensures a * c <= b * c
  {
  }

  /** Row `k` of the feed sits at `k % limit` on page `k / limit + 1`. */
  lemma PageOfRow(k: nat, limit: nat)
    requires limit > 0
    ensures Offset(k / limit + 1, limit) + k % limit == k && k % limit < limit
  {
  }

  /** A page whose first row exists is counted among the pages. */
  lemma PageWithinCount(page: nat, limit: nat, total: nat)
    requires limit > 0 && page >= 1 && Offset(page, limit) < total
    ensures page <= PageCount(total, limit)
  {
    var pages := PageCount(total, limit);
    if pages < page {
      MulMonotonic(pages, page - 1, limit);
    }
  }

  /** The parts of the feed response that locate a row: the page asked
      for, the page count and the page's rows. */
  lemma FeedPageOf(rows: seq<Notification>, userId: nat, includeRead: bool, limit: nat, page: nat)
    requires limit > 0 && page >= 1
    ensures var q := FeedQuery(Some(page), Some(limit), if includeRead then Some("true") else None);
            var r := GetUserNotifications(rows, userId, q);
            var feed := UserFeed(rows, userId, includeRead);
            && r.page == page
            && r.pages == PageCount(|feed|, limit)
            && r.notifications == Page(feed, Offset(page, limit), limit)
  {
  }

  /** Every row of the feed is reachable: row `Offset(page, limit) + pos`
      of the feed, with `pos < limit`, is at position `pos` of page `page`,
      and that page is one of the pages reported. With `PageOfRow`, this
      places row `k` on page `k / limit + 1`. */
  lemma EveryFeedRowIsOnAPage(rows: seq<Notification>, userId: nat, includeRead: bool, limit: nat, page: nat, pos: nat)
    requires limit > 0 && page >= 1 && pos < limit
    requires Offset(page, limit) + pos < |UserFeed(rows, userId, includeRead)|
    ensures var q := FeedQuery(Some(page), Some(limit), if includeRead then Some("true") else None);
            var r := GetUserNotifications(rows, userId, q);
            && r.page <= r.pages
            && pos < |r.notifications|
            && r.notifications[pos] == UserFeed(rows, userId, includeRead)[Offset(page, limit) + pos]
  {
    var feed := UserFeed(rows, userId, includeRead);
    FeedPageOf(rows, userId, includeRead, limit, page);
    PageWithinCount(page, limit, |feed|);
    PageAt(feed, Offset(page, limit), limit, pos);
  }

  /** `findByPk` followed by the ownership check: 404 when there is no such
      notification, 403 when it belongs to somebody else, else its row. */
  function Owned(rows: seq<Notification>, id: nat, userId: nat): (r: Result<nat>)
    ensures r.Ok? ==> r.value < |rows| && rows[r.value].id == id && rows[r.value].userId == userId
    ensures (r == Fail(404, NotFound)) <==> (forall n :: n in rows ==> n.id != id)
    ensures (r == Fail(403, NotOwner)) <==>
              IndexOfNotification(rows, id).Some? && rows[IndexOfNotification(rows, id).value].userId != userId
    ensures r.Ok? || r == Fail(404, NotFound) || r == Fail(403, NotOwner)
  {
    match IndexOfNotification(rows, id)
    case None => Fail(404, NotFound)
    case Some(i) => if rows[i].userId != userId then Fail(403, NotOwner) else Ok(i)
  }

  /** `markNotificationAsRead` for the signed-in user `userId`. */
  method MarkNotificationAsRead(table: NotificationTable, id: nat, userId: nat) returns (r: Result<string>)
    requires table.Valid()
    modifies table
    ensures table.Valid()
    ensures table.nextId == old(table.nextId)
    ensures Owned(old(table.rows), id, userId).Err? ==>
              var e := Owned(old(table.rows), id, userId);
              r == Err(e.status, e.error) && table.rows == old(table.rows)
    ensures Owned(old(table.rows), id, userId).Ok? ==>
              var i := Owned(old(table.rows), id, userId).value;
              r == Ok(MarkedRead) && table.rows == old(table.rows)[i := old(table.rows)[i].(isRead := true)]
  {
    var owned := Owned(table.rows, id, userId);
    if owned.Err? {
      return Err(owned.status, owned.error);
    }
    table.MarkAsRead(owned.value);
    r := Ok(MarkedRead);
  }

  /** `markAllNotificationsAsRead` for the signed-in user. */
  method MarkAllNotificationsAsRead(table: NotificationTable, userId: nat) returns (r: Result<string>)
    requires table.Valid()
    modifies table
    ensures table.Valid()
    ensures table.nextId == old(table.nextId)
    ensures r == Ok(AllMarkedRead) && table.rows == ReadAll(old(table.rows), userId)
  {
    table.MarkAllAsRead(userId);
    r := Ok(AllMarkedRead);
  }

  /** `deleteNotification` for the signed-in user. */
  method DeleteNotification(table: NotificationTable, id: nat, userId: nat) returns (r: Result<string>)
    requires table.Valid()
    modifies table
    ensures table.Valid()
    ensures table.nextId == old(table.nextId)
    ensures Owned(old(table.rows), id, userId).Err? ==>
              var e := Owned(old(table.rows), id, userId);
              r == Err(e.status, e.error) && table.rows == old(table.rows)
    ensures Owned(old(table.rows), id, userId).Ok? ==>
              var i := Owned(old(table.rows), id, userId).value;
              r == Ok(Removed) && table.rows == old(table.rows)[..i] + old(table.rows)[i + 1..]
  {
    var owned := Owned(table.rows, id, userId);
    if owned.Err? {
      return Err(owned.status, owned.error);
    }
    table.Delete(owned.value);
    r := Ok(Removed);
  }

  /** `createNotification`: the body's fields, with `general` and `in-app`
      filled in by the controller itself when absent. */
  method CreateNotification(table: NotificationTable, body: NotificationInput, now: int) returns (r: Result<Notification>)
    requires table.Valid()
    modifies table
    ensures table.Valid()
    ensures r == NewNotification(body, old(table.nextId), now)
    ensures table.nextId == old(table.nextId) + (if r.Ok? then 1 else 0)
    ensures r.Ok? ==> table.rows == old(table.rows) + [r.value]
    ensures r.Err? ==> table.rows == old(table.rows)
  {
    var input := body.(kind := Some(if body.kind.Some? then body.kind.value else General),
                       deliveryMethod := Some(if body.deliveryMethod.Some? then body.deliveryMethod.value else InApp));
    r := table.Create(input, now);
  }
}
