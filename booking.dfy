/** The Booking model: the end-after-start validator, the status defaults,
    the `beforeCreate` overlap hook, duration and price, and the list
    queries. The booking table is a class whose rows are values; creation
    appends a row, `calculatePrice` and the payment hooks rewrite one.
 */
module Bookings {

  import opened Wrappers
  import opened Seqs
  import Studios

  datatype BookingStatus = Pending | Confirmed | Cancelled | Completed

  datatype PaymentStatus = Pending | Partial | Completed | Refunded

  /** A booking row; times are milliseconds, `totalPrice` is None while NULL. */
  datatype Booking = Booking(
    id: nat,
    userId: nat,
    studioId: nat,
    startTime: int,
    endTime: int,
    status: BookingStatus,
    notes: Option<string>,
    totalPrice: Option<real>,
    paymentStatus: PaymentStatus)

  /** The attributes given to `Booking.create`. */
  datatype BookingRequest = BookingRequest(
    userId: nat,
    studioId: nat,
    startTime: int,
    endTime: int,
    notes: Option<string>)

  const EndBeforeStart := "End time must be after start time"
  const AlreadyBooked := "The studio is already booked during this time"
  const StudioNotFound := "Studio not found"

  /** Milliseconds in an hour. */
  const Hour: int := 1000 * 60 * 60

  // ---------------------------------------------------------------------------
  // The overlap test

  /** The `[Op.or]` of the overlap query for an existing booking [bs, be] and
      a requested [s, e]: the booking starts inside the request, ends inside
      it, or covers it. `BETWEEN` includes both of its ends. */
  predicate ThreeWay(bs: int, be: int, s: int, e: int)
  {
    || (s <= bs && bs <= e)
    || (s <= be && be <= e)
    || (bs <= s && be >= e)
  }

  /** For well-formed intervals the three-way test is exactly the
      intersection of the closed intervals [bs, be] and [s, e]. */
  lemma ThreeWayIsClosedIntersection(bs: int, be: int, s: int, e: int)
    requires bs <= be && s <= e
    ensures ThreeWay(bs, be, s, e) <==> bs <= e && s <= be
  {
  }

  /** Because both ends are included, bookings that only touch conflict:
      [10:00, 11:00] blocks [11:00, 12:00] and the other way round. */
  lemma TouchingIntervalsConflict(t: int)
    ensures ThreeWay(t, t + Hour, t + Hour, t + 2 * Hour)
    ensures ThreeWay(t + Hour, t + 2 * Hour, t, t + Hour)
    ensures !ThreeWay(t, t + Hour, t + Hour + 1, t + 2 * Hour)
  {
  }

  /** The `where` of the hook: same studio, not cancelled, three-way test. */
  predicate Blocks(b: Booking, studioId: nat, s: int, e: int)
  {
    b.studioId == studioId && b.status != BookingStatus.Cancelled && ThreeWay(b.startTime, b.endTime, s, e)
  }

  ghost predicate HasClash(rows: seq<Booking>, studioId: nat, s: int, e: int)
  {
    exists i :: 0 <= i < |rows| && Blocks(rows[i], studioId, s, e)
  }

  /** `Booking.findOne` of the hook: a blocking booking, if there is one. */
  function FindClash(rows: seq<Booking>, studioId: nat, s: int, e: int): (r: Option<nat>)
    ensures r.Some? ==> r.value < |rows| && Blocks(rows[r.value], studioId, s, e)
    ensures r.None? <==> !HasClash(rows, studioId, s, e)
  {
    FirstIndex(rows, (b: Booking) => Blocks(b, studioId, s, e))
  }

  // ---------------------------------------------------------------------------
  // Admission and the table invariant

  /** Closed intervals of two bookings share an instant. */
  predicate Intersect(a: Booking, b: Booking)
  {
    a.startTime <= b.endTime && b.startTime <= a.endTime
  }

  ghost predicate TimesOrdered(rows: seq<Booking>)
  {
    forall i :: 0 <= i < |rows| ==> rows[i].startTime < rows[i].endTime
  }

  /** No two non-cancelled bookings of one studio share an instant. */
  ghost predicate NoOverlap(rows: seq<Booking>)
  {
    forall i, j ::
      0 <= i < |rows| && 0 <= j < |rows| && i != j
      && rows[i].studioId == rows[j].studioId
      && rows[i].status != BookingStatus.Cancelled && rows[j].status != BookingStatus.Cancelled
      ==> !Intersect(rows[i], rows[j])
  }

  /** `Booking.create(req)`: validation first (end after start), then the
      `beforeCreate` hook (no blocking booking), then a row with the
      defaults `pending`/`pending` and no price. */
  function Admission(rows: seq<Booking>, req: BookingRequest, id: nat): (r: Result<Booking>)
    ensures r.Ok? <==> req.startTime < req.endTime && !HasClash(rows, req.studioId, req.startTime, req.endTime)
    ensures req.endTime <= req.startTime ==> r == Invalid([EndBeforeStart])
    ensures req.startTime < req.endTime && HasClash(rows, req.studioId, req.startTime, req.endTime) ==>
              r == Fail(StatusUnset, AlreadyBooked)
    ensures r.Ok? ==>
              && r.value.id == id && r.value.userId == req.userId && r.value.studioId == req.studioId
              && r.value.startTime == req.startTime && r.value.endTime == req.endTime
              && r.value.notes == req.notes && r.value.totalPrice.None?
              && r.value.status == BookingStatus.Pending && r.value.paymentStatus == PaymentStatus.Pending
  {
    if req.endTime <= req.startTime then Invalid([EndBeforeStart])
    else if FindClash(rows, req.studioId, req.startTime, req.endTime).Some? then Fail(StatusUnset, AlreadyBooked)
    else Ok(Booking(id, req.userId, req.studioId, req.startTime, req.endTime,
                    BookingStatus.Pending, req.notes, None, PaymentStatus.Pending))
  }

  /** Cancelled bookings and bookings of other studios never block a request. */
  lemma OnlyLiveSameStudioBookingsBlock(rows: seq<Booking>, req: BookingRequest, id: nat)
    requires req.startTime < req.endTime
    requires forall i :: 0 <= i < |rows| ==>
               rows[i].studioId != req.studioId || rows[i].status == BookingStatus.Cancelled
    ensures Admission(rows, req, id).Ok?
  {
  }

  /** Appending an admitted booking keeps the table free of overlaps. */
  lemma {:induction false} AdmissionKeepsNoOverlap(rows: seq<Booking>, req: BookingRequest, id: nat)
    requires TimesOrdered(rows) && NoOverlap(rows)
    requires Admission(rows, req, id).Ok?
    ensures TimesOrdered(rows + [Admission(rows, req, id).value])
    ensures NoOverlap(rows + [Admission(rows, req, id).value])
  {
    var b := Admission(rows, req, id).value;
    var rows' := rows + [b];
    forall i | 0 <= i < |rows| && rows[i].studioId == b.studioId && rows[i].status != BookingStatus.Cancelled
      ensures !Intersect(rows[i], b) && !Intersect(b, rows[i])
    {
      assert !Blocks(rows[i], b.studioId, b.startTime, b.endTime);
      ThreeWayIsClosedIntersection(rows[i].startTime, rows[i].endTime, b.startTime, b.endTime);
    }
    forall i, j | 0 <= i < |rows'| && 0 <= j < |rows'| && i != j
      && rows'[i].studioId == rows'[j].studioId
      && rows'[i].status != BookingStatus.Cancelled && rows'[j].status != BookingStatus.Cancelled
      ensures !Intersect(rows'[i], rows'[j])
    {
      if i < |rows| && j < |rows| {
        assert rows'[i] == rows[i] && rows'[j] == rows[j];
      }
    }
  }

  /** Setting a booking's status to cancelled keeps the table free of overlaps. */
  lemma CancelKeepsNoOverlap(rows: seq<Booking>, i: nat)
    requires i < |rows| && TimesOrdered(rows) && NoOverlap(rows)
    ensures TimesOrdered(rows[i := rows[i].(status := BookingStatus.Cancelled)])
    ensures NoOverlap(rows[i := rows[i].(status := BookingStatus.Cancelled)])
  {
  }

  // ---------------------------------------------------------------------------
  // Duration and price

  /** `getDuration`: the length of the booking in (fractional) hours. */
  function Duration(b: Booking): (h: real)
    ensures h * Hour as real == (b.endTime - b.startTime) as real
    ensures b.startTime < b.endTime ==> h > 0.0
  {
    (b.endTime - b.startTime) as real / Hour as real
  }

  /** What `calculatePrice` computes: the rate of the booked studio times the
      duration, or "Studio not found" (no status set) for an unknown or
      deleted studio. */
  function Price(b: Booking, studios: seq<Studio>): (r: Result<real>)
    ensures r.Err? <==> Studios.FindByPk(studios, b.studioId).None?
    ensures r.Err? ==> r == Fail(StatusUnset, StudioNotFound)
    ensures r.Ok? ==> exists s :: s in studios && s.id == b.studioId && !s.deleted
                                 && r.value == s.hourlyRate * Duration(b)
  {
    match Studios.FindByPk(studios, b.studioId)
    case None => Fail(StatusUnset, StudioNotFound)
    case Some(s) => Ok(s.hourlyRate * Duration(b))
  }

  /** 50 an hour for 10:00 to 11:30 costs 75. */
  lemma PriceExample(b: Booking, studios: seq<Studio>)
    requires b.endTime - b.startTime == 90 * 60 * 1000
    requires Studios.FindByPk(studios, b.studioId).Some?
    requires Studios.FindByPk(studios, b.studioId).value.hourlyRate == 50.0
    ensures Price(b, studios) == Ok(75.0)
  {
    assert Duration(b) == 1.5;
  }

  // ---------------------------------------------------------------------------
  // List queries

  predicate StartAsc(a: Booking, b: Booking) { a.startTime <= b.startTime }
  predicate StartDesc(a: Booking, b: Booking) { a.startTime >= b.startTime }

  lemma StartOrders()
    ensures TotalPreorder(StartAsc) && TotalPreorder(StartDesc)
  {
  }

  /** `Booking.findByUser`: that user's bookings, latest start first. */
  function FindByUser(rows: seq<Booking>, userId: nat): (r: seq<Booking>)
    ensures forall b :: b in r <==> b in rows && b.userId == userId
    ensures forall b :: multiset(r)[b] == if b.userId == userId then multiset(rows)[b] else 0
    ensures Sorted(r, StartDesc)
  {
    StartOrders();
    var keep := (b: Booking) => b.userId == userId;
    FilterCounts(rows, keep);
    var found := Filter(rows, keep);
    SortByMembers(found, StartDesc);
    SortBy(found, StartDesc)
  }

  /** `Booking.findByStudio`: that studio's bookings, earliest start first. */
  function FindByStudio(rows: seq<Booking>, studioId: nat): (r: seq<Booking>)
    ensures forall b :: b in r <==> b in rows && b.studioId == studioId
    ensures forall b :: multiset(r)[b] == if b.studioId == studioId then multiset(rows)[b] else 0
    ensures Sorted(r, StartAsc)
  {
    StartOrders();
    var keep := (b: Booking) => b.studioId == studioId;
    FilterCounts(rows, keep);
    var found := Filter(rows, keep);
    SortByMembers(found, StartAsc);
    SortBy(found, StartAsc)
  }

  /** `Booking.findUpcoming`: the user's bookings that start after `now` and
      are not cancelled, earliest first. */
  function FindUpcoming(rows: seq<Booking>, userId: nat, now: int): (r: seq<Booking>)
    ensures forall b :: b in r <==>
              b in rows && b.userId == userId && b.startTime > now && b.status != BookingStatus.Cancelled
    ensures forall b :: multiset(r)[b] ==
              if b.userId == userId && b.startTime > now && b.status != BookingStatus.Cancelled
              then multiset(rows)[b] else 0
    ensures Sorted(r, StartAsc)
  {
    StartOrders();
    var keep := (b: Booking) => b.userId == userId && b.startTime > now && b.status != BookingStatus.Cancelled;
    FilterCounts(rows, keep);
    var found := Filter(rows, keep);
    SortByMembers(found, StartAsc);
    SortBy(found, StartAsc)
  }

  // ---------------------------------------------------------------------------
  // The table

  function IndexOf(rows: seq<Booking>, id: nat): (r: Option<nat>)
    ensures r.Some? ==> r.value < |rows| && rows[r.value].id == id
    ensures r.None? ==> forall b :: b in rows ==> b.id != id
  {
    FirstIndex(rows, (b: Booking) => b.id == id)
  }

  type Studio = Studios.Studio

  class BookingTable {
    var rows: seq<Booking>
    var nextId: nat

    /** Every row has a valid interval, no two live bookings of a studio
        overlap, and ids are distinct and below `nextId`. */
    ghost predicate Valid()
      reads this
    {
      && TimesOrdered(rows)
      && NoOverlap(rows)
      && (forall i :: 0 <= i < |rows| ==> rows[i].id < nextId)
      && (forall i, j :: 0 <= i < j < |rows| ==> rows[i].id != rows[j].id)
    }

    constructor ()
      ensures Valid() && rows == [] && nextId == 0
    {
      rows := [];
      nextId := 0;
    }

    /** `Booking.create`: validates the interval, runs the overlap hook, then
        inserts the booking with its defaults. */
    method Create(req: BookingRequest) returns (r: Result<Booking>)
      requires Valid()
      modifies this
      ensures Valid()
      ensures r == Admission(old(rows), req, old(nextId))
      ensures nextId == old(nextId) + (if r.Ok? then 1 else 0)
      ensures r.Ok? ==> forall b :: b in old(rows) ==> b.id != r.value.id
      ensures rows == if r.Ok? then old(rows) + [r.value] else old(rows)
    {
      if req.endTime <= req.startTime {
        return Invalid([EndBeforeStart]);
      }
      var clash := FindClash(rows, req.studioId, req.startTime, req.endTime);
      if clash.Some? {
        return Fail(StatusUnset, AlreadyBooked);
      }
      var b := Booking(nextId, req.userId, req.studioId, req.startTime, req.endTime,
                       BookingStatus.Pending, req.notes, None, PaymentStatus.Pending);
      AdmissionKeepsNoOverlap(rows, req, nextId);
      rows := rows + [b];
      nextId := nextId + 1;
      r := Ok(b);
    }

    /** `booking.calculatePrice()` on the row at `i`: sets its total price and
        nothing else, or fails when its studio cannot be found. */
    method CalculatePrice(i: nat, studios: seq<Studio>) returns (r: Result<real>)
      requires Valid() && i < |rows|
      modifies this
      ensures Valid() && nextId == old(nextId)
      ensures r == Price(old(rows[i]), studios)
      ensures rows == if r.Ok? then old(rows)[i := old(rows[i]).(totalPrice := Some(r.value))] else old(rows)
    {
      var studio := Studios.FindByPk(studios, rows[i].studioId);
      if studio.None? {
        return Fail(StatusUnset, StudioNotFound);
      }
      var price := studio.value.hourlyRate * Duration(rows[i]);
      assert Price(rows[i], studios).Ok? && Price(rows[i], studios).value == price;
      rows := rows[i := rows[i].(totalPrice := Some(price))];
      r := Ok(price);
    }

    /** Sets the status of the booking with that id to cancelled; reports
        whether there was one. */
    method Cancel(id: nat) returns (found: bool)
      requires Valid()
      modifies this
      ensures Valid() && nextId == old(nextId)
      ensures found == IndexOf(old(rows), id).Some?
      ensures rows == if found
                      then var i := IndexOf(old(rows), id).value;
                           old(rows)[i := old(rows[i]).(status := BookingStatus.Cancelled)]
                      else old(rows)
    {
      var i := IndexOf(rows, id);
      found := i.Some?;
      if found {
        CancelKeepsNoOverlap(rows, i.value);
        rows := rows[i.value := rows[i.value].(status := BookingStatus.Cancelled)];
      }
    }

    /** `booking.paymentStatus = status; booking.save()` for the booking with
        that id, as the payment hooks do; nothing happens when there is none. */
    method SetPaymentStatus(id: nat, status: PaymentStatus)
      requires Valid()
      modifies this
      ensures Valid() && nextId == old(nextId)
      ensures rows == match IndexOf(old(rows), id)
                      case None => old(rows)
                      case Some(i) => old(rows)[i := old(rows[i]).(paymentStatus := status)]
    {
      var i := IndexOf(rows, id);
      if i.Some? {
        rows := rows[i.value := rows[i.value].(paymentStatus := status)];
      }
    }
  }
}
