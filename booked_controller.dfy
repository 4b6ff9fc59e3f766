/**
 * The booking handlers (src/controllers/bookedController.js): booking a flat with a first
 * payment, which sets the flat `booked` or, at half paid, `sold`, counts it on the project
 * and records the payment; and reading a booking back.
 */
module BookedController {
  import opened Wrappers
  import opened Records
  import opened Db
  import opened BookingsRepo
  import opened PaymentsRepo
  import opened ProjectRepo
  import opened ProjectFlatsRepo
  import opened Ledger

  /**
   * `bookFlatController` (bookedController.js:6-55). A missing customer or a zero
   * `amount` or `totalPayment` is refused before anything is written. The booking is put
   * (replacing any earlier one) and the flat set `booked`, then `sold` at half paid. A
   * project that is not there makes the counter update fail after those two writes, and
   * the handler answers 500 with no payment recorded; otherwise the payment is recorded
   * under the customer as given and the answer is 201.
   */
  method BookFlatController(
    db: Store, projectId: string, flatId: string, customer: Option<PaymentCustomer>,
    amount: int, totalPayment: int, summary: string, paymentId: string, now: Timestamp)
    returns (resp: Response<bool>)
    modifies db`bookings, db`flats, db`projects, db`payments
    ensures customer.None? || amount == 0 || totalPayment == 0 <==> resp == Fail(400)
    ensures resp == Fail(400) ==>
              && db.bookings == old(db.bookings) && db.flats == old(db.flats)
              && db.projects == old(db.projects) && db.payments == old(db.payments)
    ensures resp != Fail(400) ==>
              var k := FlatKey(projectId, flatId);
              && customer.Some?
              && db.bookings == old(db.bookings)[k := Booking(k, customer.value.id, customer.value.name,
                                                               totalPayment, amount, Some(now))]
              && db.flats == old(db.flats)[k := WithStatus(Stored(old(db.flats), k), StatusForPayment(amount, totalPayment))]
    ensures resp != Fail(400) && projectId !in old(db.projects) ==>
              resp == Fail(500) && db.projects == old(db.projects) && db.payments == old(db.payments)
    ensures resp != Fail(400) && projectId in old(db.projects) ==>
              && customer.Some?
              && resp == Response(201, true, None)
              && db.projects == old(db.projects)[projectId :=
                   if HalfPaid(amount, totalPayment) then AfterSale(old(db.projects)[projectId])
                   else AfterBooking(old(db.projects)[projectId])]
              && db.payments == old(db.payments)
                   + [NewPayment(paymentId, projectId, None, flatId, customer.value, amount, summary, now)]
    ensures resp.code == 201 && TableConsistent(old(db.flats)) ==> TableConsistent(db.flats)
    ensures resp.code == 201 && LedgerBalanced(old(db.bookings), old(db.payments)) && '#' !in projectId
            && PaidOnLog(old(db.payments), ProjectFlatKey(projectId, flatId)) == 0 ==>
              LedgerBalanced(db.bookings, db.payments)
  {
    if customer.None? || amount == 0 || totalPayment == 0 {
      return Fail(400);
    }
    var k := FlatKey(projectId, flatId);
    ghost var bookings0, payments0 := db.bookings, db.payments;
    var b := BookAndMarkFlat(db, k, customer.value, totalPayment, amount, now);
    var counted := CountOnProject(db, projectId, HalfPaid(amount, totalPayment));
    if counted.Err? {
      return Fail(500);
    }
    var _ := AddPayment(db, paymentId, projectId, None, flatId, customer.value, amount, summary, now);
    if LedgerBalanced(bookings0, payments0) && '#' !in projectId
       && PaidOnLog(payments0, ProjectFlatKey(projectId, flatId)) == 0 {
      NewBookingKeepsLedger(bookings0, payments0, k, b,
                            NewPayment(paymentId, projectId, None, flatId, customer.value, amount, summary, now));
    }
    resp := Response(201, true, None);
  }

  /** The first two writes of a booking: the booking itself, then the flat's status. */
  method BookAndMarkFlat(
    db: Store, k: FlatKey, customer: PaymentCustomer, totalPayment: int, amount: int, now: Timestamp)
    returns (b: Booking)
    modifies db`bookings, db`flats
    ensures b == Booking(k, customer.id, customer.name, totalPayment, amount, Some(now))
    ensures db.bookings == old(db.bookings)[k := b]
    ensures db.flats == old(db.flats)[k := WithStatus(Stored(old(db.flats), k), StatusForPayment(amount, totalPayment))]
    ensures TableConsistent(old(db.flats)) ==> TableConsistent(db.flats)
  {
    b := CreateBookedFlat(db, k, customer.id, customer.name, totalPayment, amount, now);
    UpdateFlatStatus(db, k, Booked);
    if HalfPaid(amount, totalPayment) {
      UpdateFlatStatus(db, k, Sold);
    }
  }

  /** The counter update: one more sold flat at half paid, one more booked flat otherwise. */
  method CountOnProject(db: Store, projectId: string, sold: bool) returns (r: Result<bool, Failure>)
    modifies db`projects
    ensures projectId !in old(db.projects) <==> r.Err?
    ensures r.Err? ==> db.projects == old(db.projects)
    ensures r.Ok? ==>
              db.projects == old(db.projects)[projectId :=
                if sold then AfterSale(old(db.projects)[projectId]) else AfterBooking(old(db.projects)[projectId])]
  {
    if sold {
      r := IncrementProjectSoldCount(db, projectId);
    } else {
      r := IncrementProjectBookedCount(db, projectId);
    }
  }

  /** `getBookedFlatController` (bookedController.js:56-74): 404 when the flat has no booking. */
  function GetBookedFlatController(bookings: map<FlatKey, Booking>, projectId: string, flatId: string)
    : (resp: Response<Booking>)
    ensures FlatKey(projectId, flatId) !in bookings <==> resp == Fail(404)
    ensures resp.code == 200 ==>
              resp.success && resp.body == Some(bookings[FlatKey(projectId, flatId)])
    ensures resp.code == 404 || resp.code == 200
  {
    match GetBookedFlat(bookings, FlatKey(projectId, flatId))
    case None => Fail(404)
    case Some(b) => Response(200, true, Some(b))
  }
}
