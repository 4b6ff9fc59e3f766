/**
 * The invoice handlers (src/controllers/invoiceController.js): linking a flat to an
 * invoice chain, reading the linked customer, swapping the latest invoice and unlinking.
 *
 * A request field the client left out and one it sent as "" are both "". The flat found
 * through the `latestInvoiceId` index is the input `hit` (see `InvoiceIndexAnswers`).
 */
module InvoiceController {
  import opened Wrappers
  import opened Records
  import opened Db
  import opened InvoiceRepo
  import opened ProjectFlatsRepo
  import opened WpRepo

  datatype AttachBody = AttachBody(
    flatStatus: FlatStatus, latestInvoiceId: string, rootInvoiceId: string,
    totalAmount: int, advance: int)

  /**
   * The status `attachInvoiceToFlat` gives the flat for the chain's latest version;
   * None is the 400 for a total that is missing or not positive.
   */
  function AttachStatus(latest: Invoice): (r: Option<FlatStatus>)
    ensures r.None? <==> AmountOrZero(latest.totalAmount) <= 0
    ensures r == Some(Sold) <==>
              AmountOrZero(latest.totalAmount) > 0 && 2 * AmountOrZero(latest.advance) >= AmountOrZero(latest.totalAmount)
    ensures r == Some(Booked) <==>
              AmountOrZero(latest.totalAmount) > 0 && 2 * AmountOrZero(latest.advance) < AmountOrZero(latest.totalAmount)
  {
    var total := AmountOrZero(latest.totalAmount);
    if total <= 0 then None else Some(StatusForPayment(AmountOrZero(latest.advance), total))
  }

  /**
   * `attachInvoiceToFlat` (invoiceController.js:5-69). Past the field check the chain must be
   * acyclic from `invoiceId`, or the resolvers never return.
   */
  method AttachInvoiceToFlat(db: Store, invoiceId: string, projectId: string, flatId: string)
    returns (resp: Response<AttachBody>)
    requires invoiceId != "" && projectId != "" && flatId != "" ==>
               ForwardWalkEnds(db.invoices, invoiceId) && BackwardWalkEnds(db.invoices, invoiceId)
    modifies db`flats
    ensures invoiceId == "" || projectId == "" || flatId == "" ==> resp == Fail(400) && db.flats == old(db.flats)
    ensures invoiceId != "" && projectId != "" && flatId != "" ==>
              var latest := LatestOf(db.invoices, invoiceId);
              var root := RootOf(db.invoices, invoiceId);
              && (latest.None? ==> resp == Fail(404) && db.flats == old(db.flats))
              && (latest.Some? && !(root.Ok? && root.value.Some?) ==> resp == Fail(500) && db.flats == old(db.flats))
              && (latest.Some? && root.Ok? && root.value.Some? && AttachStatus(latest.value).None? ==>
                        resp == Fail(400) && db.flats == old(db.flats))
              && (latest.Some? && root.Ok? && root.value.Some? && AttachStatus(latest.value).Some? ==>
                        var k := FlatKey(projectId, flatId);
                        && resp.code == 200 && resp.success
                        && resp.body == Some(AttachBody(AttachStatus(latest.value).value, latest.value.id,
                                                        root.value.value.id, AmountOrZero(latest.value.totalAmount),
                                                        AmountOrZero(latest.value.advance)))
                        && db.flats == old(db.flats)[k := WithInvoice(Stored(old(db.flats), k), latest.value.id,
                                                                      root.value.value.id, AttachStatus(latest.value).value)])
  {
    if invoiceId == "" || projectId == "" || flatId == "" {
      return Fail(400);
    }
    var latest := GetLatestInvoiceByAnyId(db.invoices, invoiceId);
    if latest.None? {
      return Fail(404);
    }
    var root := GetRootInvoiceByAnyId(db.invoices, invoiceId);
    if !(root.Ok? && root.value.Some?) {
      // a dangling back-link throws inside the resolver; a null root fails on `._id`
      return Fail(500);
    }
    var status := AttachStatus(latest.value);
    if status.None? {
      return Fail(400);
    }
    AttachInvoiceAndUpdateStatus(db, FlatKey(projectId, flatId), latest.value.id, root.value.value.id, status.value);
    resp := Response(200, true, Some(AttachBody(status.value, latest.value.id, root.value.value.id,
                                                AmountOrZero(latest.value.totalAmount),
                                                AmountOrZero(latest.value.advance))));
  }

  /** The `data` of `getFlatCustomerInvoiceDetails`. */
  datatype CustomerDetails = CustomerDetails(
    customerName: Option<string>, pan: Option<string>, totalAmount: int, advance: int,
    customerPhone: Option<string>)

  /** `getFlatCustomerInvoiceDetails` (invoiceController.js:71-121). */
  function GetFlatCustomerInvoiceDetails(
    flats: map<FlatKey, Flat>, invs: seq<Invoice>, projectId: string, flatId: string)
    : (resp: Response<CustomerDetails>)
    ensures resp.code == 400 <==> projectId == "" || flatId == ""
    ensures resp.code == 200 <==>
              && projectId != "" && flatId != ""
              && FlatKey(projectId, flatId) in flats
              && OrNull(flats[FlatKey(projectId, flatId)].latestInvoiceId).Some?
              && GetInvoiceById(invs, flats[FlatKey(projectId, flatId)].latestInvoiceId.value).Some?
    ensures resp.code != 400 && resp.code != 200 ==> resp == Fail(404)
    ensures resp.code == 200 ==>
              var inv := GetInvoiceById(invs, flats[FlatKey(projectId, flatId)].latestInvoiceId.value).value;
              && resp.success
              && resp.body == Some(CustomerDetails(OrNull(inv.customer.name), OrNull(inv.customer.pan),
                                                   AmountOrZero(inv.totalAmount), AmountOrZero(inv.advance),
                                                   OrNull(inv.customer.phone)))
  {
    if projectId == "" || flatId == "" then Fail(400)
    else
      match GetFlatById(flats, FlatKey(projectId, flatId))
      case None => Fail(404)
      case Some(flat) =>
        match OrNull(flat.latestInvoiceId)
        case None => Fail(404)
        case Some(id) =>
          match GetInvoiceById(invs, id)
          case None => Fail(404)
          case Some(inv) =>
            Response(200, true, Some(CustomerDetails(OrNull(inv.customer.name), OrNull(inv.customer.pan),
                                                     AmountOrZero(inv.totalAmount), AmountOrZero(inv.advance),
                                                     OrNull(inv.customer.phone))))
  }

  /**
   * `check == true` (invoiceController.js:168) with `check` the object
   * `{ loan_approved }`: loose equality turns the object into the string
   * "[object Object]", whose numeric value NaN is never 1, so the comparison is false
   * whatever the flag holds.
   */
  function LooselyEqualsTrue(check: LoanCheck): bool
  {
    false
  }

  /** The status `swapLatestInvoice` writes, as written: the loan override is dead code. */
  function SwapStatus(newInvoice: Invoice, check: LoanCheck): (s: FlatStatus)
    ensures s == StatusForPayment(AmountOrZero(newInvoice.advance), AmountOrZero(newInvoice.totalAmount))
    ensures s == Sold <==> 2 * AmountOrZero(newInvoice.advance) >= AmountOrZero(newInvoice.totalAmount)
  {
    var s := StatusForPayment(AmountOrZero(newInvoice.advance), AmountOrZero(newInvoice.totalAmount));
    if LooselyEqualsTrue(check) then Sold else s
  }

  /** Unlike attaching, swapping has no positivity check: a zero total marks the flat sold. */
  lemma ZeroTotalSwapsToSold(newInvoice: Invoice, check: LoanCheck)
    requires newInvoice.totalAmount.None? && newInvoice.advance.None?
    ensures SwapStatus(newInvoice, check) == Sold
  {
  }

  /** An approved loan does not make the swap choose `sold` for a less-than-half-paid invoice. */
  lemma LoanApprovalIgnored(newInvoice: Invoice)
    requires 2 * AmountOrZero(newInvoice.advance) < AmountOrZero(newInvoice.totalAmount)
    ensures SwapStatus(newInvoice, LoanCheck(true)) == Booked
  {
  }

  datatype SwapBody = SwapBody(flatStatus: FlatStatus, latestInvoiceId: Option<string>)

  /** The compare-and-set guard: the named flat still has `current` as its latest invoice. */
  predicate InvoiceGuard(flats: map<FlatKey, Flat>, k: FlatKey, current: string)
  {
    k in flats && flats[k].latestInvoiceId == Some(current)
  }

  /**
   * `swapLatestInvoice` (invoiceController.js:122-204). Only `null` detaches; an absent or
   * empty new id reaches the store as a key it rejects (500).
   */
  method SwapLatestInvoice(db: Store, current: string, newId: JsValue, hit: Option<FlatKey>)
    returns (resp: Response<SwapBody>)
    modifies db`flats
    ensures current == "" ==> resp == Fail(400) && db.flats == old(db.flats)
    ensures current != "" && newId == JsNull ==>
              && (hit.None? ==> resp == Response(200, true, None) && db.flats == old(db.flats))
              && (hit.Some? && !InvoiceGuard(old(db.flats), hit.value, current) ==>
                        resp == Fail(409) && db.flats == old(db.flats))
              && (hit.Some? && InvoiceGuard(old(db.flats), hit.value, current) ==>
                        resp == Response(200, true, Some(SwapBody(Free, None)))
                        && db.flats == old(db.flats)[hit.value := FreedOfInvoice(old(db.flats)[hit.value])])
    ensures current != "" && (newId == JsUndefined || newId == JsStr("")) ==>
                resp == Fail(500) && db.flats == old(db.flats)
    ensures current != "" && newId.JsStr? && newId.s != "" && GetInvoiceById(db.invoices, newId.s).None? ==>
                resp == Fail(404) && db.flats == old(db.flats)
    ensures current != "" && newId.JsStr? && newId.s != "" && GetInvoiceById(db.invoices, newId.s).Some? ==>
              var inv := GetInvoiceById(db.invoices, newId.s).value;
              var s := StatusForPayment(AmountOrZero(inv.advance), AmountOrZero(inv.totalAmount));
              && (hit.None? ==> resp == Response(200, true, None) && db.flats == old(db.flats))
              && (hit.Some? && !InvoiceGuard(old(db.flats), hit.value, current) ==>
                        resp == Fail(409) && db.flats == old(db.flats))
              && (hit.Some? && InvoiceGuard(old(db.flats), hit.value, current) ==>
                        resp == Response(200, true, Some(SwapBody(s, Some(newId.s))))
                        && db.flats == old(db.flats)[hit.value := WithLatestInvoice(old(db.flats)[hit.value], newId.s, s)])
    ensures InvoiceIndexAnswers(old(db.flats), current, hit) ==> resp.code != 409
  {
    if current == "" {
      return Fail(400);
    }
    if newId == JsNull {
      var detached := DetachInvoiceByCurrentInvoiceId(db, hit, current);
      match detached {
        case Ok(_) => resp := Response(200, true, Some(SwapBody(Free, None)));
        case Err(e) => resp := if e == ConditionalCheckFailed then Fail(409) else Response(200, true, None);
      }
      return;
    }
    if newId == JsUndefined || newId == JsStr("") {
      return Fail(500);
    }
    var newInvoice := GetInvoiceById(db.invoices, newId.s);
    if newInvoice.None? {
      return Fail(404);
    }
    var check := GetLoanApprovalStatus(db.flats, hit);
    if check.Err? {
      return Response(200, true, None);
    }
    var status := SwapStatus(newInvoice.value, check.value);
    var updated := UpdateLatestInvoiceByCurrentInvoiceId(db, hit, current, newId.s, status);
    match updated
    case Ok(_) => resp := Response(200, true, Some(SwapBody(status, Some(newId.s))));
    case Err(e) => resp := if e == ConditionalCheckFailed then Fail(409) else Response(200, true, None);
  }

  datatype ResetBody = ResetBody(projectId: string, flatId: string, status: Option<FlatStatus>)

  /**
   * `deleteFlatInvoiceLink` (invoiceController.js:206-238): removes the phone's schedule,
   * then frees the flat and drops its invoice links.
   */
  method DeleteFlatInvoiceLink(db: Store, projectId: string, flatId: string, phone: string)
    returns (resp: Response<ResetBody>)
    modifies db`flats, db`schedules
    ensures projectId == "" || flatId == "" ==>
              resp == Fail(400) && db.flats == old(db.flats) && db.schedules == old(db.schedules)
    ensures projectId != "" && flatId != "" ==>
              var k := FlatKey(projectId, flatId);
              && resp == Response(200, true, Some(ResetBody(projectId, flatId, Some(Free))))
              && db.schedules == AfterDelete(old(db.schedules), phone)
              && db.flats == old(db.flats)[k := FreedOfInvoice(Stored(old(db.flats), k))]
  {
    if projectId == "" || flatId == "" {
      return Fail(400);
    }
    var _ := DeleteScheduleByPhone(db, phone);
    var k := FlatKey(projectId, flatId);
    var updated := ResetFlatToFree(db, k);
    match updated
    case Ok(f) => resp := Response(200, true, Some(ResetBody(projectId, flatId, f.status)));
    case Err(_) => resp := Fail(500);
  }

  /**
   * `deleteFlatInvoiceLink` as the file is written: for a truthy `phone` the schedule
   * delete at invoiceController.js:217 throws (see `WpRepo.DeleteScheduleByPhoneAsWritten`),
   * so the handler answers 500 before the flat is reset. Without a phone it behaves as
   * `DeleteFlatInvoiceLink`.
   */
  method DeleteFlatInvoiceLinkAsWritten(db: Store, projectId: string, flatId: string, phone: string)
    returns (resp: Response<ResetBody>)
    modifies db`flats, db`schedules
    ensures projectId == "" || flatId == "" ==> resp == Fail(400)
    ensures projectId != "" && flatId != "" && phone != "" ==> resp == Fail(500)
    ensures projectId == "" || flatId == "" || phone != "" ==> db.flats == old(db.flats)
    ensures db.schedules == old(db.schedules)
    ensures projectId != "" && flatId != "" && phone == "" ==>
              var k := FlatKey(projectId, flatId);
              && resp == Response(200, true, Some(ResetBody(projectId, flatId, Some(Free))))
              && db.flats == old(db.flats)[k := FreedOfInvoice(Stored(old(db.flats), k))]
  {
    if projectId == "" || flatId == "" {
      return Fail(400);
    }
    var deleted := DeleteScheduleByPhoneAsWritten(db, phone);
    if deleted.Err? {
      return Fail(500);
    }
    var k := FlatKey(projectId, flatId);
    var updated := ResetFlatToFree(db, k);
    match updated
    case Ok(f) => resp := Response(200, true, Some(ResetBody(projectId, flatId, f.status)));
    case Err(_) => resp := Fail(500);
  }
}
