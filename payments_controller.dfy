/**
 * The payment handlers (src/controllers/paymentsController.js): recording a payment
 * against a booking, with the cap at the agreed total and the one-time promotion to
 * `sold`, and the listing, search and history endpoints.
 */
module PaymentsController {
  import opened Wrappers
  import opened Records
  import opened Text
  import opened Db
  import opened BookingsRepo
  import opened PaymentsRepo
  import opened ProjectRepo
  import opened ProjectFlatsRepo
  import opened Ledger

  /**
   * The project-name lookup the handler calls at paymentsController.js:38: the project's
   * name, none when there is no such project. project.repo.js defines no such function.
   */
  function ProjectNameById(projects: map<string, Project>, projectId: string): (r: Option<string>)
    ensures r.Some? <==> projectId in projects
    ensures r.Some? ==> r.value == projects[projectId].name
  {
    if projectId in projects then Some(projects[projectId].name) else None
  }

  /**
   * Whether a payment that brings the total paid to `newPaid` promotes the flat: at least
   * half paid and the flat not yet `sold`. None when the flat record is missing and the
   * status read fails (only reached once half is paid).
   */
  function Promotes(flat: Option<Flat>, newPaid: int, total: int): (r: Option<bool>)
    ensures r.None? <==> HalfPaid(newPaid, total) && flat.None?
    ensures r == Some(true) <==> HalfPaid(newPaid, total) && flat.Some? && flat.value.status != Some(Sold)
  {
    if !HalfPaid(newPaid, total) then Some(false)
    else if flat.None? then None
    else Some(flat.value.status != Some(Sold))
  }

  /** Once promoted, a flat is never promoted again, whatever is paid later. */
  lemma PromotesAtMostOnce(f: Flat, newPaid: int, total: int)
    ensures Promotes(Some(WithStatus(f, Sold)), newPaid, total) == Some(false)
  {
  }

  /**
   * `addPaymentController` (paymentsController.js:7-69) with the project-name lookup it
   * means to make. The only check on `amount` is the cap; a negative amount passes.
   */
  method AddPaymentController(
    db: Store, projectId: string, flatId: string, amount: int, summary: string,
    paymentId: string, now: Timestamp)
    returns (resp: Response<int>)
    modifies db`bookings, db`payments, db`projects, db`flats
    ensures var k := FlatKey(projectId, flatId);
            k !in old(db.bookings) ==>
              && resp == Fail(404)
              && db.bookings == old(db.bookings) && db.payments == old(db.payments)
              && db.projects == old(db.projects) && db.flats == old(db.flats)
    ensures var k := FlatKey(projectId, flatId);
            k in old(db.bookings) && old(db.bookings)[k].paid + amount > old(db.bookings)[k].totalPayment ==>
              && resp == Fail(400)
              && db.bookings == old(db.bookings) && db.payments == old(db.payments)
              && db.projects == old(db.projects) && db.flats == old(db.flats)
    ensures var k := FlatKey(projectId, flatId);
            k in old(db.bookings) && old(db.bookings)[k].paid + amount <= old(db.bookings)[k].totalPayment ==>
              var b := old(db.bookings)[k];
              var newPaid := b.paid + amount;
              var promotes := Promotes(GetFlatById(old(db.flats), k), newPaid, b.totalPayment);
              && db.bookings == old(db.bookings)[k := b.(paid := newPaid)]
              && db.payments == old(db.payments)
                   + [NewPayment(paymentId, projectId, ProjectNameById(old(db.projects), projectId), flatId,
                                 PaymentCustomer(b.customerId, b.customerName), amount, summary, now)]
              && (promotes == Some(false) ==>
                    resp == Response(200, true, Some(newPaid))
                    && db.projects == old(db.projects) && db.flats == old(db.flats))
              && (promotes.None? ==>
                    resp == Fail(500) && db.projects == old(db.projects) && db.flats == old(db.flats))
              && (promotes == Some(true) && projectId !in old(db.projects) ==>
                    resp == Fail(500) && db.projects == old(db.projects) && db.flats == old(db.flats))
              && (promotes == Some(true) && projectId in old(db.projects) ==>
                    && resp == Response(200, true, Some(newPaid))
                    && db.projects == old(db.projects)[projectId := AfterSale(old(db.projects)[projectId])]
                    && db.flats == old(db.flats)[k := WithStatus(old(db.flats)[k], Sold)])
    ensures resp.code != 404 && resp.code != 400 && LedgerBalanced(old(db.bookings), old(db.payments)) ==>
              LedgerBalanced(db.bookings, db.payments)
  {
    var k := FlatKey(projectId, flatId);
    var booked := GetBookedFlat(db.bookings, k);
    if booked.None? {
      return Fail(404);
    }
    var b := booked.value;
    var flat := GetFlatById(db.flats, k);
    var newPaid := b.paid + amount;
    if newPaid > b.totalPayment {
      return Fail(400);
    }
    var projectName := RecordPayment(db, k, b, amount, summary, paymentId, now);
    var promotes := Promotes(flat, newPaid, b.totalPayment);
    if promotes.None? {
      return Fail(500);
    }
    if promotes.value {
      var counted := PromoteToSold(db, k);
      if counted.Err? {
        return Fail(500);
      }
    }
    resp := Response(200, true, Some(newPaid));
  }

  /**
   * The increment of the booking's `paid` and the payment record behind it, named after
   * the project when there is one.
   */
  method RecordPayment(
    db: Store, k: FlatKey, b: Booking, amount: int, summary: string, paymentId: string, now: Timestamp)
    returns (projectName: Option<string>)
    requires k in db.bookings && db.bookings[k] == b
    modifies db`bookings, db`payments
    ensures projectName == ProjectNameById(db.projects, k.projectId)
    ensures db.bookings == old(db.bookings)[k := b.(paid := b.paid + amount)]
    ensures db.payments == old(db.payments)
              + [NewPayment(paymentId, k.projectId, projectName, k.flatId,
                            PaymentCustomer(b.customerId, b.customerName), amount, summary, now)]
    ensures LedgerBalanced(old(db.bookings), old(db.payments)) ==> LedgerBalanced(db.bookings, db.payments)
  {
    ghost var bookings0, payments0 := db.bookings, db.payments;
    IncrementPaidAmount(db, k, amount);
    projectName := ProjectNameById(db.projects, k.projectId);
    var p := NewPayment(paymentId, k.projectId, projectName, k.flatId,
                        PaymentCustomer(b.customerId, b.customerName), amount, summary, now);
    var _ := AddPayment(db, paymentId, k.projectId, projectName, k.flatId,
                        PaymentCustomer(b.customerId, b.customerName), amount, summary, now);
    if LedgerBalanced(bookings0, payments0) {
      RecordedPaymentKeepsLedger(bookings0, payments0, k, p);
    }
  }

  /** The promotion: one more sold flat on the project, then the flat set `sold`. */
  method PromoteToSold(db: Store, k: FlatKey) returns (counted: Result<bool, Failure>)
    modifies db`projects, db`flats
    ensures k.projectId !in old(db.projects) <==> counted.Err?
    ensures counted.Err? ==> db.projects == old(db.projects) && db.flats == old(db.flats)
    ensures counted.Ok? ==>
              && db.projects == old(db.projects)[k.projectId := AfterSale(old(db.projects)[k.projectId])]
              && db.flats == old(db.flats)[k := WithStatus(Stored(old(db.flats), k), Sold)]
  {
    counted := IncrementProjectSoldCount(db, k.projectId);
    if counted.Err? {
      return;
    }
    UpdateFlatStatus(db, k, Sold);
  }

  /**
   * `addPaymentController` as the file is written: `projectRepo.getProjectNameById` is
   * not a function, so the call after the increment throws and the handler answers 500
   * with the booking's `paid` raised and no payment recorded.
   */
  method AddPaymentControllerAsWritten(
    db: Store, projectId: string, flatId: string, amount: int, summary: string,
    paymentId: string, now: Timestamp)
    returns (resp: Response<int>)
    modifies db`bookings
    ensures var k := FlatKey(projectId, flatId);
            k !in old(db.bookings) ==> resp == Fail(404) && db.bookings == old(db.bookings)
    ensures var k := FlatKey(projectId, flatId);
            k in old(db.bookings) && old(db.bookings)[k].paid + amount > old(db.bookings)[k].totalPayment ==>
              resp == Fail(400) && db.bookings == old(db.bookings)
    ensures var k := FlatKey(projectId, flatId);
            k in old(db.bookings) && old(db.bookings)[k].paid + amount <= old(db.bookings)[k].totalPayment ==>
              && resp == Fail(500)
              && db.bookings == old(db.bookings)[k := old(db.bookings)[k].(paid := old(db.bookings)[k].paid + amount)]
    ensures resp.code == 500 && amount != 0 && LedgerBalanced(old(db.bookings), db.payments) ==>
              !LedgerBalanced(db.bookings, db.payments)
  {
    var k := FlatKey(projectId, flatId);
    var booked := GetBookedFlat(db.bookings, k);
    if booked.None? {
      return Fail(404);
    }
    var b := booked.value;
    var newPaid := b.paid + amount;
    if newPaid > b.totalPayment {
      return Fail(400);
    }
    ghost var bookings0 := db.bookings;
    IncrementPaidAmount(db, k, amount);
    if amount != 0 && LedgerBalanced(bookings0, db.payments) {
      UnrecordedIncrementBreaksLedger(bookings0, db.payments, k, amount);
    }
    resp := Fail(500);
  }

  /**
   * `parseInt(page || "1", 10)`, replaced by 1 when it is NaN or below 1. An absent
   * parameter and "" both read as "1".
   */
  function NormalisePage(raw: Option<string>): (page: int)
    ensures page >= 1
    ensures raw.Some? && raw.value != "" && ParseInt(raw.value).Some? && ParseInt(raw.value).value >= 1 ==>
              page == ParseInt(raw.value).value
    ensures raw.None? || raw == Some("") ==> page == 1
  {
    var text := if raw.None? || raw == Some("") then "1" else raw.value;
    ParseIntDecimal(1);
    assert Decimal(1) == "1";
    match ParseInt(text)
    case None => 1
    case Some(n) => if n < 1 then 1 else n
  }

  /** A page number written in decimal comes back unchanged. */
  lemma NormalisePageDecimal(n: nat)
    requires n >= 1
    ensures NormalisePage(Some(Decimal(n))) == n
  {
    var text := Decimal(n);
    ParseIntDecimal(n);
    assert text != "" && ParseInt(text) == Some(n);
  }

  /** `getAllPayments` (paymentsController.js:104-134). */
  method GetAllPaymentsController(db: Store, rawPage: Option<string>) returns (resp: Response<PaymentPage>)
    ensures resp.code == 200 && resp.success && resp.body.Some?
    ensures resp.body.value.currentPage == NormalisePage(rawPage)
    ensures HoldsPage(resp.body.value.payments, db.payments, PageOffset(NormalisePage(rawPage)))
    ensures NewestFirst(resp.body.value.payments)
    ensures resp.body.value.totalCount == |db.payments|
    ensures resp.body.value.totalPages == PageCount(resp.body.value.totalCount)
  {
    var page := NormalisePage(rawPage);
    var result := GetAllPayments(db, page);
    resp := Response(200, true, Some(result));
  }

  /** `searchPaymentsController` (paymentsController.js:148-186). */
  method SearchPaymentsController(db: Store, query: Option<string>, rawPage: Option<string>)
    returns (resp: Response<PaymentPage>)
    ensures query.None? || IsBlank(query.value) <==> resp == Fail(400)
    ensures resp.code == 200 ==>
              && query.Some? && resp.success && resp.body.Some?
              && resp.body.value.currentPage == NormalisePage(rawPage)
              && (forall p :: p in resp.body.value.payments ==> p in db.payments && Matches(p, ToLower(query.value)))
              && resp.body.value.totalCount == |Matching(db.payments, ToLower(query.value))|
    ensures resp.code == 200 ==>
              && query.Some? && resp.body.Some?
              && HoldsPage(resp.body.value.payments, Matching(db.payments, ToLower(query.value)),
                           PageOffset(NormalisePage(rawPage)))
              && NewestFirst(resp.body.value.payments)
              && resp.body.value.totalPages == PageCount(resp.body.value.totalCount)
    ensures resp.code == 400 || resp.code == 200
  {
    if query.None? || IsBlank(query.value) {
      return Fail(400);
    }
    var page := NormalisePage(rawPage);
    var result := SearchPayments(db, query.value, page);
    resp := Response(200, true, Some(result));
  }

  datatype HistoryBody = HistoryBody(payments: seq<Payment>, count: nat)

  /** `getFlatPaymentHistoryController` (paymentsController.js:72-101). */
  function GetFlatPaymentHistory(ps: seq<Payment>, projectId: string, flatId: string)
    : (resp: Response<HistoryBody>)
    ensures projectId == "" || flatId == "" <==> resp == Fail(400)
    ensures resp.code == 200 ==>
              && resp.success && resp.body.Some?
              && resp.body.value.count == |resp.body.value.payments|
              && (forall p :: p in resp.body.value.payments <==>
                    p in ps && p.projectFlatKey == ProjectFlatKey(projectId, flatId))
    ensures resp.code == 400 || resp.code == 200
  {
    if projectId == "" || flatId == "" then Fail(400)
    else
      var payments := GetPaymentsByFlat(ps, projectId, flatId);
      Response(200, true, Some(HistoryBody(payments, |payments|)))
  }
}
