/**
 * The KYC handlers (src/controllers/kycController.js): the MIME allow-list and object-key
 * naming behind the upload URLs, and the field checks in front of saving, approving and
 * deleting a customer. A request field that is absent or empty is "".
 */
module KycController {
  import opened Wrappers
  import opened Records
  import opened Db
  import opened KycRepo

  /** `ALLOWED_TYPES` (kycController.js:9). */
  const AllowedTypes: seq<string> := ["image/jpeg", "image/png", "image/jpg"]

  predicate IsAllowedType(t: string)
  {
    t in AllowedTypes
  }

  /** The object key of one document of a customer: `kyc/<customerId>/<doc>`. */
  function ObjectKey(customerId: string, doc: string): (key: string)
    ensures |key| == 5 + |customerId| + |doc|
    ensures key[..4] == "kyc/" && key[4..4 + |customerId|] == customerId
    ensures key[4 + |customerId|..] == "/" + doc
  {
    "kyc/" + customerId + "/" + doc
  }

  /** Two customers never share the key of a document. */
  lemma ObjectKeyInjective(id1: string, id2: string, doc: string)
    requires ObjectKey(id1, doc) == ObjectKey(id2, doc)
    ensures id1 == id2
  {
    assert |id1| == |id2|;
    assert id1 == ObjectKey(id1, doc)[4..4 + |id1|];
  }

  /** The keys handed out for one upload; voter and other are absent without a type. */
  datatype UploadKeys = UploadKeys(
    customerId: string, aadhaar: string, pan: string, voter: Option<string>, other: Option<string>)

  /** The validation that refuses a set of document types. */
  predicate TypesRefused(aadhaarType: string, panType: string, voterType: string, otherType: string)
  {
    || !IsAllowedType(aadhaarType) || !IsAllowedType(panType)
    || (voterType != "" && !IsAllowedType(voterType))
    || (otherType != "" && !IsAllowedType(otherType))
  }

  /**
   * `generatePresignedUrls` (kycController.js:11-73) without the signing itself; the new
   * customer id is a parameter. Aadhaar and PAN must have an allowed type; voter and other
   * are checked only when a type is given.
   */
  function GeneratePresignedKeys(
    aadhaarType: string, panType: string, voterType: string, otherType: string, customerId: string)
    : (resp: Response<UploadKeys>)
    ensures TypesRefused(aadhaarType, panType, voterType, otherType) <==> resp == Fail(400)
    ensures resp.code == 200 ==>
              && resp.success && resp.body.Some?
              && resp.body.value.customerId == customerId
              && resp.body.value.aadhaar == ObjectKey(customerId, "aadhaar")
              && resp.body.value.pan == ObjectKey(customerId, "pan")
              && (resp.body.value.voter.None? <==> voterType == "")
              && (resp.body.value.voter.Some? ==> resp.body.value.voter.value == ObjectKey(customerId, "voter"))
              && (resp.body.value.other.None? <==> otherType == "")
              && (resp.body.value.other.Some? ==> resp.body.value.other.value == ObjectKey(customerId, "other"))
    ensures resp.code == 400 || resp.code == 200
  {
    if !IsAllowedType(aadhaarType) || !IsAllowedType(panType) then Fail(400)
    else if voterType != "" && !IsAllowedType(voterType) then Fail(400)
    else if otherType != "" && !IsAllowedType(otherType) then Fail(400)
    else
      Response(200, true, Some(UploadKeys(
        customerId,
        ObjectKey(customerId, "aadhaar"),
        ObjectKey(customerId, "pan"),
        if voterType != "" then Some(ObjectKey(customerId, "voter")) else None,
        if otherType != "" then Some(ObjectKey(customerId, "other")) else None)))
  }

  /** An empty type for an optional document is no type at all, whatever the other fields. */
  lemma OptionalTypesChecked(aadhaarType: string, panType: string, voterType: string, otherType: string)
    requires IsAllowedType(aadhaarType) && IsAllowedType(panType)
    ensures !TypesRefused(aadhaarType, panType, "", "")
    ensures TypesRefused(aadhaarType, panType, voterType, otherType) <==>
              (voterType != "" && voterType !in AllowedTypes) || (otherType != "" && otherType !in AllowedTypes)
  {
  }

  /** The customer record that saving the handed-out keys creates. */
  function SavedWithKeys(keys: UploadKeys, name: string, phone: string, address: string,
                         aadhaar: string, pan: string, voter: string, other: string): KycInput
  {
    KycInput(keys.customerId, name, phone, address, aadhaar, pan, voter, other,
             keys.aadhaar, keys.pan, keys.voter.GetOr(""), keys.other.GetOr(""))
  }

  /**
   * A customer saved with the keys handed out at upload time is deleted with exactly those
   * objects, in the order aadhaar, pan, voter, other.
   */
  lemma UploadedObjectsDeleted(
    aadhaarType: string, panType: string, voterType: string, otherType: string, customerId: string,
    name: string, phone: string, address: string, aadhaar: string, pan: string, voter: string,
    other: string, now: Timestamp)
    requires !TypesRefused(aadhaarType, panType, voterType, otherType)
    ensures var keys := GeneratePresignedKeys(aadhaarType, panType, voterType, otherType, customerId).body.value;
            DocumentKeys(NewKyc(SavedWithKeys(keys, name, phone, address, aadhaar, pan, voter, other), now))
              == [ObjectKey(customerId, "aadhaar"), ObjectKey(customerId, "pan")]
                 + (if voterType != "" then [ObjectKey(customerId, "voter")] else [])
                 + (if otherType != "" then [ObjectKey(customerId, "other")] else [])
  {
  }

  /**
   * `saveKyc` (kycController.js:75-116): 400 and no write unless the Aadhaar and PAN
   * numbers and keys are all given. The store refuses an item whose key is empty, which
   * the handler reports as 500.
   */
  method SaveKyc(db: Store, input: KycInput, now: Timestamp) returns (resp: Response<bool>)
    modifies db`kyc
    ensures input.aadhaar == "" || input.pan == "" || input.aadhaarKey == "" || input.panKey == "" <==>
              resp == Fail(400)
    ensures resp.code != 200 ==> db.kyc == old(db.kyc)
    ensures resp.code == 200 <==> resp != Fail(400) && input.customerId != ""
    ensures resp.code == 200 ==>
              resp.success && db.kyc == old(db.kyc)[input.customerId := NewKyc(input, now)]
    ensures resp.code == 200 ==> db.kyc[input.customerId].status == Pending
  {
    if input.aadhaar == "" || input.pan == "" || input.aadhaarKey == "" || input.panKey == "" {
      return Fail(400);
    }
    if input.customerId == "" {
      return Fail(500);
    }
    var _ := CreateKyc(db, input, now);
    resp := Response(200, true, None);
  }

  /** `approveKyc` (kycController.js:133-167). */
  method ApproveKyc(db: Store, customerId: string) returns (resp: Response<Kyc>)
    modifies db`kyc
    ensures customerId == "" <==> resp == Fail(400)
    ensures customerId != "" && customerId !in old(db.kyc) <==> resp == Fail(404)
    ensures resp.code != 200 ==> db.kyc == old(db.kyc)
    ensures resp.code == 200 ==>
              && customerId in old(db.kyc) && resp.success
              && resp.body == Some(old(db.kyc)[customerId].(status := Approved))
              && db.kyc == old(db.kyc)[customerId := resp.body.value]
    ensures resp.code == 400 || resp.code == 404 || resp.code == 200
  {
    if customerId == "" {
      return Fail(400);
    }
    var existing := GetKycById(db.kyc, customerId);
    if existing.None? {
      return Fail(404);
    }
    var updated := ApproveKycCustomer(db, customerId);
    resp := Response(200, true, Some(updated));
  }

  /** `deleteKycCustomerController` (kycController.js:169-202). */
  method DeleteKycCustomerController(db: Store, customerId: string) returns (resp: Response<Deleted>)
    modifies db`kyc
    ensures customerId == "" <==> resp == Fail(400)
    ensures customerId != "" && customerId !in old(db.kyc) <==> resp == Fail(404)
    ensures resp.code != 200 ==> db.kyc == old(db.kyc)
    ensures resp.code == 200 ==>
              && customerId in old(db.kyc) && resp.success
              && resp.body == Some(Deleted(old(db.kyc)[customerId], DocumentKeys(old(db.kyc)[customerId])))
              && db.kyc == old(db.kyc) - {customerId}
    ensures resp.code == 400 || resp.code == 404 || resp.code == 200
  {
    if customerId == "" {
      return Fail(400);
    }
    var deleted := DeleteKycCustomer(db, customerId);
    if deleted.None? {
      return Fail(404);
    }
    resp := Response(200, true, deleted);
  }
}
