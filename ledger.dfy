/**
 * How `booked_flats.paid` relates to `flat_payments`: every amount added to a booking's
 * `paid` is also recorded as one payment under the flat's `projectFlatKey`.
 */
module Ledger {
  import opened Records
  import opened PaymentsRepo

  /** The sum of the amounts recorded under `key`. */
  function PaidOnLog(ps: seq<Payment>, key: string): int
  {
    if ps == [] then 0
    else PaidOnLog(ps[..|ps| - 1], key) + (if ps[|ps| - 1].projectFlatKey == key then ps[|ps| - 1].amount else 0)
  }

  lemma PaidOnLogAppend(ps: seq<Payment>, p: Payment, key: string)
    ensures PaidOnLog(ps + [p], key) == PaidOnLog(ps, key) + (if p.projectFlatKey == key then p.amount else 0)
  {
    assert (ps + [p])[..|ps|] == ps;
  }

  function FlatLogKey(k: FlatKey): string
  {
    ProjectFlatKey(k.projectId, k.flatId)
  }

  /**
   * Every booking's `paid` is the sum of the payments recorded for its flat (and project
   * ids hold no '#', so flats do not share a `projectFlatKey`).
   */
  predicate LedgerBalanced(bookings: map<FlatKey, Booking>, ps: seq<Payment>)
  {
    forall k :: k in bookings ==> '#' !in k.projectId && bookings[k].paid == PaidOnLog(ps, FlatLogKey(k))
  }

  /** Adding `p.amount` to the flat's `paid` and recording `p` for that flat keeps the balance. */
  lemma RecordedPaymentKeepsLedger(bookings: map<FlatKey, Booking>, ps: seq<Payment>, k: FlatKey, p: Payment)
    requires LedgerBalanced(bookings, ps) && k in bookings
    requires p.projectFlatKey == FlatLogKey(k)
    ensures LedgerBalanced(bookings[k := bookings[k].(paid := bookings[k].paid + p.amount)], ps + [p])
  {
    var after := bookings[k := bookings[k].(paid := bookings[k].paid + p.amount)];
    forall k' | k' in after
      ensures '#' !in k'.projectId && after[k'].paid == PaidOnLog(ps + [p], FlatLogKey(k'))
    {
      PaidOnLogAppend(ps, p, FlatLogKey(k'));
      if k' != k && FlatLogKey(k') == FlatLogKey(k) {
        ProjectFlatKeyInjective(k'.projectId, k'.flatId, k.projectId, k.flatId);
      }
    }
  }

  /** A new booking with `paid = p.amount`, recorded as `p`, balances when its flat had no payments. */
  lemma NewBookingKeepsLedger(bookings: map<FlatKey, Booking>, ps: seq<Payment>, k: FlatKey, b: Booking, p: Payment)
    requires LedgerBalanced(bookings, ps) && '#' !in k.projectId
    requires PaidOnLog(ps, FlatLogKey(k)) == 0
    requires b.paid == p.amount && p.projectFlatKey == FlatLogKey(k)
    ensures LedgerBalanced(bookings[k := b], ps + [p])
  {
    var after := bookings[k := b];
    forall k' | k' in after
      ensures '#' !in k'.projectId && after[k'].paid == PaidOnLog(ps + [p], FlatLogKey(k'))
    {
      PaidOnLogAppend(ps, p, FlatLogKey(k'));
      if k' != k && FlatLogKey(k') == FlatLogKey(k) {
        ProjectFlatKeyInjective(k'.projectId, k'.flatId, k.projectId, k.flatId);
      }
    }
  }

  /** Raising `paid` by a non-zero amount without recording a payment unbalances the ledger. */
  lemma UnrecordedIncrementBreaksLedger(bookings: map<FlatKey, Booking>, ps: seq<Payment>, k: FlatKey, amount: int)
    requires LedgerBalanced(bookings, ps) && k in bookings && amount != 0
    ensures !LedgerBalanced(bookings[k := bookings[k].(paid := bookings[k].paid + amount)], ps)
  {
    var after := bookings[k := bookings[k].(paid := bookings[k].paid + amount)];
    assert after[k].paid != PaidOnLog(ps, FlatLogKey(k));
  }
}
