/**
 * The document store: one field per table. Tables read by primary key are maps; tables
 * the handlers scan, where the scan order is observable, are sequences in scan order.
 */
module Db {
  import opened Records

  class Store {
    var projects: map<string, Project>
    var flats: map<FlatKey, Flat>
    var bookings: map<FlatKey, Booking>
    var payments: seq<Payment>
    var invoices: seq<Invoice>
    var cancellations: seq<Cancellation>
    var kyc: map<string, Kyc>
    /** `wp_table`: the appointment date stored per phone number. */
    var schedules: map<string, string>

    constructor ()
      ensures projects == map[] && flats == map[] && bookings == map[]
      ensures payments == [] && invoices == [] && cancellations == []
      ensures kyc == map[] && schedules == map[]
    {
      projects, flats, bookings := map[], map[], map[];
      payments, invoices, cancellations := [], [], [];
      kyc, schedules := map[], map[];
    }
  }
}
