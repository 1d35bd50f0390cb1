/** The Payment model: the amount validators, the hooks that carry a
    payment's outcome over to its booking's payment status, `processRefund`
    and the list queries. Payments live in a table class; the hooks rewrite
    rows of the booking table.
 */
module Payments {

  import opened Wrappers
  import opened Seqs
  import opened Bookings

  /** The payment's own status (not the booking's payment status). */
  datatype PaymentState = Pending | Completed | Refunded | Failed

  datatype Payment = Payment(
    id: nat,
    bookingId: nat,
    amount: real,
    paymentMethod: string,
    status: PaymentState,
    refundedAmount: real,
    refundDate: Option<int>,
    createdAt: int)

  /** The attributes given to `Payment.create`; None is an absent attribute. */
  datatype PaymentInput = PaymentInput(
    bookingId: nat,
    amount: Option<real>,
    paymentMethod: Option<string>,
    status: Option<PaymentState>,
    refundedAmount: Option<real>)

  const AmountNull := "Payment.amount cannot be null"
  const AmountMin := "Validation min on amount failed"
  const PaymentMethodNull := "Payment.paymentMethod cannot be null"
  const RefundedAmountMin := "Validation min on refundedAmount failed"

  /** The messages of the failing field checks, in field order. */
  function Violations(amount: Option<real>, paymentMethod: Option<string>, refundedAmount: real): (m: seq<string>)
    ensures m == [] <==> amount.Some? && amount.value >= 0.0 && paymentMethod.Some? && refundedAmount >= 0.0
  {
    (if amount.None? then [AmountNull] else if amount.value < 0.0 then [AmountMin] else [])
    + (if paymentMethod.None? then [PaymentMethodNull] else [])
    + (if refundedAmount < 0.0 then [RefundedAmountMin] else [])
  }

  /** The row `Payment.create` stores: defaults `pending` and a refunded
      amount of 0, or a validation error for a missing or negative amount,
      a missing method or a negative refunded amount. */
  function NewPayment(input: PaymentInput, id: nat, now: int): (r: Result<Payment>)
    ensures r.Ok? <==>
              && input.amount.Some? && input.amount.value >= 0.0 && input.paymentMethod.Some?
              && (input.refundedAmount.None? || input.refundedAmount.value >= 0.0)
    ensures r.Err? ==> r.status == StatusUnset && r.error.name.SequelizeValidationError?
    ensures r.Ok? ==>
              && r.value.id == id && r.value.bookingId == input.bookingId
              && r.value.amount == input.amount.value && r.value.createdAt == now
              && r.value.status == (if input.status.Some? then input.status.value else PaymentState.Pending)
              && r.value.refundedAmount == (if input.refundedAmount.Some? then input.refundedAmount.value else 0.0)
              && r.value.refundDate.None?
  {
    var refunded := if input.refundedAmount.Some? then input.refundedAmount.value else 0.0;
    var violations := Violations(input.amount, input.paymentMethod, refunded);
    if violations != [] then Invalid(violations)
    else
      Ok(Payment(id, input.bookingId, input.amount.value, input.paymentMethod.value,
                 if input.status.Some? then input.status.value else PaymentState.Pending,
                 refunded, None, now))
  }

  // ---------------------------------------------------------------------------
  // The hooks

  /** The booking's payment status after the `afterCreate` hook compared the
      new payment `p` with it: only a completed payment counts, only this one
      payment's amount is compared, and a NULL total price matches neither
      branch. */
  function StatusAfterPayment(p: Payment, b: Booking): (s: PaymentStatus)
    ensures p.status == PaymentState.Completed && b.totalPrice == Some(p.amount) ==> s == PaymentStatus.Completed
    ensures p.status == PaymentState.Completed && b.totalPrice.Some? && p.amount < b.totalPrice.value ==> s == PaymentStatus.Partial
    ensures p.status != PaymentState.Completed || b.totalPrice.None? || p.amount > b.totalPrice.value ==> s == b.paymentStatus
  {
    if p.status != PaymentState.Completed then b.paymentStatus
    else match b.totalPrice
      case None => b.paymentStatus
      case Some(total) =>
        if p.amount == total then PaymentStatus.Completed
        else if p.amount < total then PaymentStatus.Partial
        else b.paymentStatus
  }

  /** The booking table after the `afterCreate` hook for the new payment `p`. */
  function AfterCreate(bookings: seq<Booking>, p: Payment): (r: seq<Booking>)
    ensures |r| == |bookings|
    ensures p.status != PaymentState.Completed ==> r == bookings
    ensures IndexOf(bookings, p.bookingId).None? ==> r == bookings
    ensures forall i :: 0 <= i < |r| && Some(i) != IndexOf(bookings, p.bookingId) ==> r[i] == bookings[i]
    ensures forall i :: 0 <= i < |r| ==> r[i] == bookings[i].(paymentStatus := r[i].paymentStatus)
    ensures IndexOf(bookings, p.bookingId).Some? ==>
              var i := IndexOf(bookings, p.bookingId).value;
              r[i].paymentStatus == StatusAfterPayment(p, bookings[i])
  {
    if p.status != PaymentState.Completed then bookings
    else match IndexOf(bookings, p.bookingId)
      case None => bookings
      case Some(i) => bookings[i := bookings[i].(paymentStatus := StatusAfterPayment(p, bookings[i]))]
  }

  /** The booking table after the `afterUpdate` hook, for a payment that was
      `before` and was saved as `after`: a change of status to refunded marks
      the booking refunded, whatever the amounts; any other update leaves the
      bookings alone. */
  function AfterUpdate(bookings: seq<Booking>, before: Payment, after: Payment): (r: seq<Booking>)
    ensures |r| == |bookings|
    ensures !(before.status != PaymentState.Refunded && after.status == PaymentState.Refunded) ==> r == bookings
    ensures forall i :: 0 <= i < |r| && Some(i) != IndexOf(bookings, after.bookingId) ==> r[i] == bookings[i]
    ensures before.status != PaymentState.Refunded && after.status == PaymentState.Refunded && IndexOf(bookings, after.bookingId).Some? ==>
              var i := IndexOf(bookings, after.bookingId).value;
              r[i] == bookings[i].(paymentStatus := PaymentStatus.Refunded)
  {
    if before.status != after.status && after.status == PaymentState.Refunded then
      match IndexOf(bookings, after.bookingId)
      case None => bookings
      case Some(i) => bookings[i := bookings[i].(paymentStatus := PaymentStatus.Refunded)]
    else bookings
  }

  /** Payments are not summed: on a booking of 100, a completed payment of 40
      and then one of 60 leave the booking `partial`, not `completed`. */
  lemma PaymentsAreNotSummed(b: Booking, p1: Payment, p2: Payment)
    requires b.totalPrice == Some(100.0)
    requires p1.bookingId == b.id && p1.status == PaymentState.Completed && p1.amount == 40.0
    requires p2.bookingId == b.id && p2.status == PaymentState.Completed && p2.amount == 60.0
    ensures AfterCreate(AfterCreate([b], p1), p2)[0].paymentStatus == PaymentStatus.Partial
  {
    assert IndexOf([b], b.id) == Some(0);
    var once := AfterCreate([b], p1);
    assert once[0].id == b.id && once[0].totalPrice == Some(100.0);
    assert IndexOf(once, b.id) == Some(0);
  }

  // ---------------------------------------------------------------------------
  // Refunds

  /** `amount || this.amount`: a missing or zero argument means the full amount. */
  function RefundOf(p: Payment, amount: Option<real>): (a: real)
    ensures amount.Some? && amount.value != 0.0 ==> a == amount.value
    ensures amount.None? || amount.value == 0.0 ==> a == p.amount
  {
    if amount.Some? && amount.value != 0.0 then amount.value else p.amount
  }

  /** The row `processRefund(amount)` saves: refunded amount, refund date and
      status `refunded`; the save fails validation when the refunded amount
      is negative. The amount paid is not an upper bound. */
  function Refund(p: Payment, amount: Option<real>, now: int): (r: Result<Payment>)
    ensures r.Err? <==> RefundOf(p, amount) < 0.0
    ensures r.Err? ==> r == Invalid([RefundedAmountMin])
    ensures r.Ok? ==> r.value == p.(refundedAmount := RefundOf(p, amount), refundDate := Some(now), status := PaymentState.Refunded)
  {
    var refunded := RefundOf(p, amount);
    if refunded < 0.0 then Invalid([RefundedAmountMin])
    else Ok(p.(refundedAmount := refunded, refundDate := Some(now), status := PaymentState.Refunded))
  }

  /** Nothing stops a refund larger than the payment. */
  lemma RefundMayExceedAmount(p: Payment, now: int)
    requires p.amount == 10.0
    ensures Refund(p, Some(25.0), now).Ok?
    ensures Refund(p, Some(25.0), now).value.refundedAmount > p.amount
  {
  }

  // ---------------------------------------------------------------------------
  // Queries

  predicate CreatedDesc(a: Payment, b: Payment) { a.createdAt >= b.createdAt }

  lemma CreatedDescOrder()
    ensures TotalPreorder(CreatedDesc)
  {
  }

  /** `Payment.findByBooking`: exactly that booking's payments, newest first. */
  function FindByBooking(rows: seq<Payment>, bookingId: nat): (r: seq<Payment>)
    ensures forall p :: p in r <==> p in rows && p.bookingId == bookingId
    ensures forall p :: multiset(r)[p] == if p.bookingId == bookingId then multiset(rows)[p] else 0
    ensures Sorted(r, CreatedDesc)
  {
    CreatedDescOrder();
    var keep := (p: Payment) => p.bookingId == bookingId;
    FilterCounts(rows, keep);
    var found := Filter(rows, keep);
    SortByMembers(found, CreatedDesc);
    SortBy(found, CreatedDesc)
  }

  /** `Payment.findByUser`: the payments of the user's bookings, newest first. */
  function FindByUser(rows: seq<Payment>, bookings: seq<Booking>, userId: nat): (r: seq<Payment>)
    ensures forall p :: p in r <==> p in rows && exists b :: b in bookings && b.userId == userId && b.id == p.bookingId
    ensures forall p :: multiset(r)[p] ==
              if exists b :: b in bookings && b.userId == userId && b.id == p.bookingId
              then multiset(rows)[p] else 0
    ensures Sorted(r, CreatedDesc)
  {
    CreatedDescOrder();
    var ids := set b | b in bookings && b.userId == userId :: b.id;
    var keep := (p: Payment) => p.bookingId in ids;
    FilterCounts(rows, keep);
    var found := Filter(rows, keep);
    SortByMembers(found, CreatedDesc);
    SortBy(found, CreatedDesc)
  }

  // ---------------------------------------------------------------------------
  // The table

  class PaymentTable {
    var rows: seq<Payment>
    var nextId: nat

    /** Stored amounts and refunded amounts are never negative. */
    ghost predicate Valid()
      reads this
    {
      && (forall i :: 0 <= i < |rows| ==> rows[i].amount >= 0.0 && rows[i].refundedAmount >= 0.0)
      && (forall i :: 0 <= i < |rows| ==> rows[i].id < nextId)
      && (forall i, j :: 0 <= i < j < |rows| ==> rows[i].id != rows[j].id)
    }

    constructor ()
      ensures Valid() && rows == [] && nextId == 0
    {
      rows := [];
      nextId := 0;
    }

    /** `Payment.create`, then its `afterCreate` hook on the booking table. */
    method Create(input: PaymentInput, now: int, bookings: BookingTable) returns (r: Result<Payment>)
      requires Valid() && bookings.Valid()
      modifies this, bookings
      ensures Valid() && bookings.Valid() && bookings.nextId == old(bookings.nextId)
      ensures r == NewPayment(input, old(nextId), now)
      ensures nextId == old(nextId) + (if r.Ok? then 1 else 0)
      ensures r.Ok? ==> forall p :: p in old(rows) ==> p.id != r.value.id
      ensures rows == if r.Ok? then old(rows) + [r.value] else old(rows)
      ensures bookings.rows == if r.Ok? then AfterCreate(old(bookings.rows), r.value) else old(bookings.rows)
    {
      r := NewPayment(input, nextId, now);
      if r.Err? {
        return;
      }
      var p := r.value;
      rows := rows + [p];
      nextId := nextId + 1;
      if p.status == PaymentState.Completed {
        var i := IndexOf(bookings.rows, p.bookingId);
        if i.Some? {
          bookings.SetPaymentStatus(p.bookingId, StatusAfterPayment(p, bookings.rows[i.value]));
        }
      }
    }

    /** `payment.status = status; payment.save()`, then the `afterUpdate` hook. */
    method UpdateStatus(i: nat, status: PaymentState, bookings: BookingTable)
      requires Valid() && bookings.Valid() && i < |rows|
      modifies this, bookings
      ensures Valid() && bookings.Valid() && bookings.nextId == old(bookings.nextId) && nextId == old(nextId)
      ensures rows == old(rows)[i := old(rows[i]).(status := status)]
      ensures bookings.rows == AfterUpdate(old(bookings.rows), old(rows[i]), rows[i])
    {
      var before := rows[i];
      rows := rows[i := before.(status := status)];
      if before.status != status && status == PaymentState.Refunded {
        bookings.SetPaymentStatus(before.bookingId, PaymentStatus.Refunded);
      }
    }

    /** `payment.processRefund(amount)` on the row at `i`, with the
        `afterUpdate` hook that follows the save. */
    method ProcessRefund(i: nat, amount: Option<real>, now: int, bookings: BookingTable) returns (r: Result<Payment>)
      requires Valid() && bookings.Valid() && i < |rows|
      modifies this, bookings
      ensures Valid() && bookings.Valid() && bookings.nextId == old(bookings.nextId) && nextId == old(nextId)
      ensures r == Refund(old(rows[i]), amount, now)
      ensures rows == if r.Ok? then old(rows)[i := r.value] else old(rows)
      ensures bookings.rows == if r.Ok? then AfterUpdate(old(bookings.rows), old(rows[i]), r.value) else old(bookings.rows)
    {
      var before := rows[i];
      var refunded := if amount.Some? && amount.value != 0.0 then amount.value else before.amount;
      if refunded < 0.0 {
        return Invalid([RefundedAmountMin]);
      }
      var after := before.(refundedAmount := refunded, refundDate := Some(now), status := PaymentState.Refunded);
      rows := rows[i := after];
      if before.status != PaymentState.Refunded {
        bookings.SetPaymentStatus(before.bookingId, PaymentStatus.Refunded);
      }
      r := Ok(after);
    }
  }
}
