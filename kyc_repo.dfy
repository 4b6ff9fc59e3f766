/**
 * The `kyc_customers` table (src/repository/kyc.repo.js): a customer's identity documents
 * and the object keys of their scans, created `pending` and later approved or deleted.
 */
module KycRepo {
  import opened Wrappers
  import opened Records
  import opened Db

  /** The fields `saveKyc` passes on; "" is an absent or empty field. */
  datatype KycInput = KycInput(
    customerId: string, name: string, phone: string, address: string, aadhaar: string,
    pan: string, voter: string, other: string, aadhaarKey: string, panKey: string,
    voterKey: string, otherKey: string)

  /** The item `createKyc` builds: keyed by the customer id, `pending`. */
  function NewKyc(input: KycInput, now: Timestamp): (k: Kyc)
    ensures k.id == input.customerId && k.status == Pending && k.createdAt == Some(now)
    ensures k.name == input.name && k.phone == input.phone && k.address == input.address
    ensures k.aadhaar == input.aadhaar && k.pan == input.pan
    ensures k.aadhaarKey == input.aadhaarKey && k.panKey == input.panKey
    ensures k.voterId == input.voter && k.otherId == input.other
    ensures k.voterKey == input.voterKey && k.otherKey == input.otherKey
  {
    Kyc(input.customerId, input.name, input.phone, input.address, input.aadhaar, input.pan,
        input.voter, input.other, input.aadhaarKey, input.panKey, input.voterKey,
        input.otherKey, Pending, Some(now))
  }

  /** `createKyc` (kyc.repo.js:15-54): puts the item and returns it. */
  method CreateKyc(db: Store, input: KycInput, now: Timestamp) returns (k: Kyc)
    modifies db`kyc
    ensures k == NewKyc(input, now)
    ensures db.kyc == old(db.kyc)[input.customerId := k]
  {
    k := NewKyc(input, now);
    db.kyc := db.kyc[input.customerId := k];
  }

  /** `getKycById` (kyc.repo.js:86-94). */
  function GetKycById(kyc: map<string, Kyc>, customerId: string): (r: Option<Kyc>)
    ensures r.None? <==> customerId !in kyc
    ensures r.Some? ==> r.value == kyc[customerId]
  {
    if customerId in kyc then Some(kyc[customerId]) else None
  }

  /**
   * `SET #status = "approved"` on the stored item; on an id with no item the store creates
   * one that holds only the id and the status.
   */
  function ApprovedRecord(kyc: map<string, Kyc>, customerId: string): (k: Kyc)
    ensures k.status == Approved
    ensures customerId in kyc ==> k == kyc[customerId].(status := Approved)
    ensures customerId !in kyc ==> k.id == customerId && k.createdAt.None?
  {
    if customerId in kyc then kyc[customerId].(status := Approved)
    else Kyc(customerId, "", "", "", "", "", "", "", "", "", "", "", Approved, None)
  }

  /** Approving twice leaves the same record as approving once. */
  lemma ApproveIdempotent(kyc: map<string, Kyc>, customerId: string)
    ensures ApprovedRecord(kyc[customerId := ApprovedRecord(kyc, customerId)], customerId) == ApprovedRecord(kyc, customerId)
  {
  }

  /** `approveKycCustomer` (kyc.repo.js:66-84): returns the item as updated. */
  method ApproveKycCustomer(db: Store, customerId: string) returns (k: Kyc)
    modifies db`kyc
    ensures k == ApprovedRecord(old(db.kyc), customerId)
    ensures db.kyc == old(db.kyc)[customerId := k]
  {
    k := ApprovedRecord(db.kyc, customerId);
    db.kyc := db.kyc[customerId := k];
  }

  /** `[aadhaar_key, pan_key, voter_key, other_key].filter(Boolean)` */
  function DocumentKeys(k: Kyc): (keys: seq<string>)
    ensures |keys| <= 4
    ensures forall i :: 0 <= i < |keys| ==> keys[i] != ""
    ensures forall x :: x in keys <==> x != "" && (x == k.aadhaarKey || x == k.panKey || x == k.voterKey || x == k.otherKey)
    ensures keys == [] <==> k.aadhaarKey == "" && k.panKey == "" && k.voterKey == "" && k.otherKey == ""
  {
    NonEmpty(k.aadhaarKey) + NonEmpty(k.panKey) + NonEmpty(k.voterKey) + NonEmpty(k.otherKey)
  }

  /** `[key].filter(Boolean)` */
  function NonEmpty(key: string): seq<string>
  {
    if key != "" then [key] else []
  }

  /** The keys come out in the order aadhaar, pan, voter, other. */
  lemma DocumentKeysInOrder(k: Kyc)
    requires k.aadhaarKey != "" && k.panKey != ""
    ensures DocumentKeys(k)[..2] == [k.aadhaarKey, k.panKey]
  {
  }

  /** What `deleteKycCustomer` returns and the object keys whose deletion it requests. */
  datatype Deleted = Deleted(customer: Kyc, objectKeys: seq<string>)

  /**
   * `deleteKycCustomer` (kyc.repo.js:96-141): null for an unknown id; otherwise removes
   * the item and returns it as it was. An empty key list means no object deletion is sent.
   */
  method DeleteKycCustomer(db: Store, customerId: string) returns (r: Option<Deleted>)
    modifies db`kyc
    ensures customerId !in old(db.kyc) ==> r.None? && db.kyc == old(db.kyc)
    ensures customerId in old(db.kyc) ==>
              r == Some(Deleted(old(db.kyc)[customerId], DocumentKeys(old(db.kyc)[customerId])))
              && db.kyc == old(db.kyc) - {customerId}
  {
    if customerId !in db.kyc {
      return None;
    }
    var customer := db.kyc[customerId];
    var keys := DocumentKeys(customer);
    db.kyc := db.kyc - {customerId};
    r := Some(Deleted(customer, keys));
  }
}
