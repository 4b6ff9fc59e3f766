/**
 * The `booked_flats` table (src/repository/bookings.repo.js): one booking per flat key,
 * holding the agreed total and the amount paid so far.
 */
module BookingsRepo {
  import opened Wrappers
  import opened Records
  import opened Db

  /** `createBookedFlat` (bookings.repo.js:9-31): puts the booking, replacing any earlier one. */
  method CreateBookedFlat(
    db: Store, k: FlatKey, customerId: string, customerName: string, totalPayment: int,
    paid: int, now: Timestamp)
    returns (b: Booking)
    modifies db`bookings
    ensures b.key == k && b.customerId == customerId && b.customerName == customerName
    ensures b.totalPayment == totalPayment && b.paid == paid && b.createdAt == Some(now)
    ensures db.bookings == old(db.bookings)[k := b]
  {
    b := Booking(k, customerId, customerName, totalPayment, paid, Some(now));
    db.bookings := db.bookings[k := b];
  }

  /** `getBookedFlat` (bookings.repo.js:33-42). */
  function GetBookedFlat(bookings: map<FlatKey, Booking>, k: FlatKey): (r: Option<Booking>)
    ensures r.None? <==> k !in bookings
    ensures r.Some? ==> r.value == bookings[k]
  {
    if k in bookings then Some(bookings[k]) else None
  }

  /**
   * `ADD paid :amt`. On a key with no booking the store creates one holding only the key
   * and `paid`; its other attributes read as "" and 0.
   */
  function AddToPaid(bookings: map<FlatKey, Booking>, k: FlatKey, amount: int): (b: Booking)
    ensures k in bookings ==> b == bookings[k].(paid := bookings[k].paid + amount)
    ensures k !in bookings ==> b.key == k && b.paid == amount && b.totalPayment == 0 && b.createdAt.None?
  {
    if k in bookings then bookings[k].(paid := bookings[k].paid + amount)
    else Booking(k, "", "", 0, amount, None)
  }

  /** `incrementPaidAmount` (bookings.repo.js:44-56). */
  method IncrementPaidAmount(db: Store, k: FlatKey, amount: int)
    modifies db`bookings
    ensures db.bookings == old(db.bookings)[k := AddToPaid(old(db.bookings), k, amount)]
  {
    db.bookings := db.bookings[k := AddToPaid(db.bookings, k, amount)];
  }

  /** Two payments add up: paying `a` then `b` leaves the booking as paying `a + b` once. */
  lemma AddToPaidAccumulates(bookings: map<FlatKey, Booking>, k: FlatKey, a: int, b: int)
    ensures AddToPaid(bookings[k := AddToPaid(bookings, k, a)], k, b) == AddToPaid(bookings, k, a + b)
  {
  }
}
