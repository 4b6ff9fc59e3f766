/**
 * The cancellation handlers (src/controllers/cancellationController.js): linking a flat
 * to a cancellation voucher, reading the linked customer and swapping the latest voucher.
 *
 * The flat found through the `latestCancellationId` index is the input `hit`
 * (see `CancellationIndexAnswers`).
 */
module CancellationController {
  import opened Wrappers
  import opened Records
  import opened Db
  import opened CancellationRepo
  import opened ProjectFlatsRepo
  import opened WpRepo

  /**
   * `attachCancellationToFlat` (cancellationController.js:6-65): removes the phone's
   * schedule first, so it is gone even when the voucher is unknown; then frees the flat,
   * drops its invoice links and links the group's latest and root vouchers.
   */
  method AttachCancellationToFlat(
    db: Store, cancellationId: string, projectId: string, flatId: string, phone: string)
    returns (resp: Response<FlatStatus>)
    modifies db`flats, db`schedules
    ensures cancellationId == "" || projectId == "" || flatId == "" || phone == "" ==>
              resp == Fail(400) && db.flats == old(db.flats) && db.schedules == old(db.schedules)
    ensures cancellationId != "" && projectId != "" && flatId != "" && phone != "" ==>
              var latest := GetLatestCancellationByAnyId(db.cancellations, cancellationId);
              var root := GetRootCancellationByAnyId(db.cancellations, cancellationId);
              var k := FlatKey(projectId, flatId);
              && db.schedules == AfterDelete(old(db.schedules), phone)
              && (latest.None? ==> resp == Fail(404) && db.flats == old(db.flats))
              && (latest.Some? ==>
                    && root.Some?
                    && resp == Response(200, true, Some(Free))
                    && db.flats == old(db.flats)[k := WithCancellation(FreedOfInvoice(Stored(old(db.flats), k)),
                                                                       latest.value.id, root.value.id)])
  {
    if cancellationId == "" || projectId == "" || flatId == "" || phone == "" {
      return Fail(400);
    }
    var _ := DeleteScheduleByPhone(db, phone);
    var latestCan := GetLatestCancellationByAnyId(db.cancellations, cancellationId);
    if latestCan.None? {
      return Fail(404);
    }
    var rootCan := GetRootCancellationByAnyId(db.cancellations, cancellationId).value;
    FreeAndLinkCancellation(db, FlatKey(projectId, flatId), latestCan.value.id, rootCan.id);
    resp := Response(200, true, Some(Free));
  }

  /**
   * `attachCancellationToFlat` as the file is written: the field check demands a truthy
   * `phone`, and for a truthy phone the schedule delete at cancellationController.js:19
   * throws (see `WpRepo.DeleteScheduleByPhoneAsWritten`). Every request past the check
   * answers 500, and neither the flat nor the schedule is written.
   */
  method AttachCancellationToFlatAsWritten(
    db: Store, cancellationId: string, projectId: string, flatId: string, phone: string)
    returns (resp: Response<FlatStatus>)
    modifies db`flats, db`schedules
    ensures cancellationId == "" || projectId == "" || flatId == "" || phone == "" <==> resp == Fail(400)
    ensures resp != Fail(400) ==> resp == Fail(500)
    ensures db.flats == old(db.flats) && db.schedules == old(db.schedules)
  {
    if cancellationId == "" || projectId == "" || flatId == "" || phone == "" {
      return Fail(400);
    }
    var deleted := DeleteScheduleByPhoneAsWritten(db, phone);
    assert deleted.Err?;
    resp := Fail(500);
  }

  /** The two flat writes of an attach: reset to free, then link the vouchers. */
  method FreeAndLinkCancellation(db: Store, k: FlatKey, latest: string, root: string)
    requires k.projectId != "" && k.flatId != ""
    modifies db`flats
    ensures db.flats == old(db.flats)[k := WithCancellation(FreedOfInvoice(Stored(old(db.flats), k)), latest, root)]
  {
    var _ := ResetFlatToFree(db, k);
    AttachCancellation(db, k, latest, root);
  }

  /** The `data` of `getFlatCustomerCancellationDetails`. */
  datatype CancellationDetails = CancellationDetails(
    customerName: Option<string>, pan: Option<string>, netReturn: int, alreadyReturned: int,
    yetToBeReturned: int)

  /** `getFlatCustomerCancellationDetails` (cancellationController.js:67-117). */
  function GetFlatCustomerCancellationDetails(
    flats: map<FlatKey, Flat>, cs: seq<Cancellation>, projectId: string, flatId: string)
    : (resp: Response<CancellationDetails>)
    ensures resp.code == 400 <==> projectId == "" || flatId == ""
    ensures resp.code == 200 <==>
              && projectId != "" && flatId != ""
              && FlatKey(projectId, flatId) in flats
              && OrNull(flats[FlatKey(projectId, flatId)].latestCancellationId).Some?
              && GetCancellationById(cs, flats[FlatKey(projectId, flatId)].latestCancellationId.value).Some?
    ensures resp.code != 400 && resp.code != 200 ==> resp == Fail(404)
    ensures resp.code == 200 ==>
              var c := GetCancellationById(cs, flats[FlatKey(projectId, flatId)].latestCancellationId.value).value;
              && resp.success
              && resp.body == Some(CancellationDetails(OrNull(c.customer.name), OrNull(c.customer.pan),
                                                       AmountOrZero(c.netReturn), AmountOrZero(c.alreadyReturned),
                                                       AmountOrZero(c.yetToBeReturned)))
  {
    if projectId == "" || flatId == "" then Fail(400)
    else
      match GetFlatById(flats, FlatKey(projectId, flatId))
      case None => Fail(404)
      case Some(flat) =>
        match OrNull(flat.latestCancellationId)
        case None => Fail(404)
        case Some(id) =>
          match GetCancellationById(cs, id)
          case None => Fail(404)
          case Some(c) =>
            Response(200, true, Some(CancellationDetails(OrNull(c.customer.name), OrNull(c.customer.pan),
                                                         AmountOrZero(c.netReturn), AmountOrZero(c.alreadyReturned),
                                                         AmountOrZero(c.yetToBeReturned))))
  }

  /** The new ids `swapLatestCancellation` treats as a detach: null, undefined and "". */
  predicate MeansDetach(newId: JsValue)
  {
    newId == JsNull || newId == JsUndefined || newId == JsStr("")
  }

  /** The compare-and-set guard of the detach. */
  predicate CancellationGuard(flats: map<FlatKey, Flat>, k: FlatKey, current: string)
  {
    k in flats && flats[k].latestCancellationId == Some(current)
  }

  /**
   * `swapLatestCancellation` (cancellationController.js:119-201). A failed detach guard is
   * not caught specially and becomes a 500; the overwrite has no guard at all.
   */
  method SwapLatestCancellation(db: Store, current: string, newId: JsValue, hit: Option<FlatKey>)
    returns (resp: Response<FlatStatus>)
    modifies db`flats
    ensures current == "" ==> resp == Fail(400) && db.flats == old(db.flats)
    ensures current != "" && MeansDetach(newId) ==>
              && (hit.None? ==> resp == Response(200, true, None) && db.flats == old(db.flats))
              && (hit.Some? && !CancellationGuard(old(db.flats), hit.value, current) ==>
                    resp == Fail(500) && db.flats == old(db.flats))
              && (hit.Some? && CancellationGuard(old(db.flats), hit.value, current) ==>
                    && resp == Response(200, true, Some(Free))
                    && db.flats == old(db.flats)[hit.value := FreedOfCancellation(old(db.flats)[hit.value])])
    ensures current != "" && !MeansDetach(newId) && GetCancellationById(db.cancellations, newId.s).None? ==>
              resp == Fail(404) && db.flats == old(db.flats)
    ensures current != "" && !MeansDetach(newId) && GetCancellationById(db.cancellations, newId.s).Some? ==>
              && resp == Response(200, true, None)
              && (hit.None? ==> db.flats == old(db.flats))
              && (hit.Some? ==>
                    db.flats == old(db.flats)[hit.value := WithLatestCancellation(Stored(old(db.flats), hit.value), newId.s)])
    ensures CancellationIndexAnswers(old(db.flats), current, hit) ==> resp.code != 500
  {
    if current == "" {
      return Fail(400);
    }
    if MeansDetach(newId) {
      var detached := DetachCancellationByCurrentCancellationId(db, hit, current);
      match detached {
        case Ok(_) => resp := Response(200, true, Some(Free));
        case Err(e) => resp := if e == NoFlatForCancellation then Response(200, true, None) else Fail(500);
      }
      return;
    }
    var newCancellation := GetCancellationById(db.cancellations, newId.s);
    if newCancellation.None? {
      return Fail(404);
    }
    var updated := UpdateLatestCancellationByCurrentCancellationId(db, hit, current, newId.s);
    // the repository answers true or throws, so the `!updated` reply is never sent
    resp := Response(200, true, None);
  }
}
