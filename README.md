# EstateFlow backend: a Dafny model of its record logic

EstateFlow is a REST backend for a real-estate sales office. Its handlers read and write
DynamoDB tables:

- projects and their flats;
- bookings of a flat by a customer, and the payments recorded against a booking;
- invoices and cancellation vouchers, each kept as chains of versions;
- KYC customers;
- a phone-to-date schedule.

This project models the logic under those store calls. Each table is a field of the
`Db.Store` class: a `map` for keyed tables, a `seq` for tables whose scan order matters.
Each repository function and each handler that writes is a method whose `modifies` clause
names the tables it touches. Pure per-record transitions, lookups and validations are
functions with lemmas about them.

Module layout follows the source, one module per file:

- `records.dfy` holds the record types, the response shape and the 50% rule.
- `store.dfy` holds the tables.
- `text.dfy` holds the string helpers the handlers rely on: `toLowerCase`, `includes`,
  `replace(/\s+/g, "-")`, `parseInt` and `trim`.
- `tables.dfy` holds the scan-to-index map.
- `ledger.dfy` holds the invariant that ties bookings to payments.

Conventions:

- A request field that is absent, `null` or `""` is `""`, or `None` where the absence
  itself matters. A JSON value that may be `null`, `undefined` or a string is `JsValue`.
- UpdateCommand is an upsert: an update on a missing key creates the item. This is
  `ProjectFlatsRepo.Stored`, which gives a blank flat for an absent key.
- A flat found through a global secondary index (`getFlatByLatestInvoiceId`,
  `getFlatByLatestCancellationId`, projectFlats.repo.js:146-175) is an input
  `hit: Option<FlatKey>`, because the index is eventually consistent.
  `InvoiceIndexAnswers` and `CancellationIndexAnswers` state the case where the index agrees
  with the table. Under them the compare-and-set failures (the 409 of the invoice swap and
  the 500 of the cancellation detach) are proved impossible.
- The 50% rule `amount >= total * 0.5` is `2 * amount >= total` over the integers
  (`Records.HalfPaid`).
- Timestamps, UUIDs and the payment id are parameters.

Two invariants are stated and kept:

- `ProjectFlatsRepo.TableConsistent`: every flat is stored under its own key. Latest and
  root links of each kind are present together. A flat with an invoice link is `booked`
  or `sold`. The repository's flat updates preserve it: a status write when the status
  is `booked` or `sold`, the latest-cancellation overwrite when the index agrees. The
  cancellation detach is the exception; see below.
- `Ledger.LedgerBalanced`: every booking's `paid` equals the sum of the payments recorded
  for its flat. Booking and adding a payment preserve it, ASSUMING project ids hold no `#`.
  The source does not guarantee that: a `#` in a project's name stays in its id
  (`ProjectController.ProjectIdKeepsHash`), and then two flats can share a
  `projectId#flatId` key (`PaymentsRepo.ProjectFlatKeyCollides`).

Behaviour kept as written, each with a lemma:

- The loan override in the invoice swap compares an object with `true`
  (invoiceController.js:166-170), so it never fires (`InvoiceController.LoanApprovalIgnored`).
- `approveLoanForFlat` never changes `status` (`ProjectFlatsRepo.ApproveLoanForFlat`).
- Detaching a cancellation frees the flat but leaves its invoice links. A flat can then be
  `free` with a latest invoice, which is the one way `TableConsistent` breaks
  (`ProjectFlatsRepo.DetachCancellationFreesInvoicedFlat`).
- The project counters are never checked before a decrement
  (`ProjectRepo.CountersCanGoNegative`).
- Two different `(block, floor, flatno)` triples can give the same flat id
  (`ProjectFlatsRepo.FlatIdCollides`).
- The handlers that delete a phone's schedule are modelled over the intended delete
  (`WpRepo.DeleteScheduleByPhone`). As written that delete throws for any truthy phone (see
  Findings), so `attachCancellationToFlat` answers 500 to every request past its field
  check (`CancellationController.AttachCancellationToFlatAsWritten`), and
  `deleteFlatInvoiceLink` answers 500 without resetting the flat whenever a phone is given
  (`InvoiceController.DeleteFlatInvoiceLinkAsWritten`).
- A flat's status is stored as a string. `Other` holds only strings besides `free`,
  `booked` and `sold` (`Records.ParseStatus`), so comparing with `Sold` is the source's
  `status !== "sold"` (`Records.SoldTestAgrees`).

## Model

| member | source | states |
|---|---|---|
| Records.StatusForPayment | src/controllers/invoiceController.js:38-39 | the chosen status is `sold` or `booked`, `sold` exactly from half paid on |
| Records.StatusForPaymentMonotone | src/controllers/invoiceController.js:160-164 | paying more never turns a `sold` choice back into `booked` |
| Records.OrNull | src/controllers/invoiceController.js:107-108 | `x \|\| null` keeps a non-empty string and turns an absent or empty one into null |
| Records.ParseStatus | src/repository/projectFlats.repo.js:55-57 | a stored status string reads back as itself, with `Other` only for strings besides the three named ones |
| Records.SoldTestAgrees | src/controllers/paymentsController.js:51 | on well-formed statuses, differing from `Sold` is `status !== "sold"` |
| Text.ToLowerIdempotent | src/repository/payments.repo.js:142 | lower-casing a lower-cased term changes nothing |
| Text.Contains | src/repository/payments.repo.js:149-155 | `contains` holds exactly when the term occurs at some position |
| Text.DashWhitespaceRuns | src/controllers/projectController.js:27 | the result has no whitespace, is no longer than the input, and equals a whitespace-free input |
| Text.ParseIntDecimal | src/controllers/paymentsController.js:107-112 | `parseInt` reads back every decimal numeral it is given |
| Tables.IndexBy | src/repository/invoice.repo.js:21-26 | the id map holds exactly the ids of the scanned rows, each mapped to a row with that id |
| Tables.IndexFindsRow | src/repository/invoice.repo.js:21-26 | with unique ids, every row is found under its own id |
| Tables.BuildIndex | src/repository/invoice.repo.js:47-50 | the loop builds the id map of the whole scan |
| InvoiceRepo.GetInvoiceById | src/repository/invoice.repo.js:78-95 | the invoice with that id, none exactly when no invoice has it |
| InvoiceRepo.FindFollower | src/repository/invoice.repo.js:34 | the first invoice in scan order whose back-link is the given id; none exactly when no invoice follows it |
| InvoiceRepo.LatestFrom | src/repository/invoice.repo.js:33-37 | the forward walk ends at an invoice no other invoice follows |
| InvoiceRepo.RootFrom | src/repository/invoice.repo.js:55-57 | the backward walk ends at an invoice without back-link, or fails on a dangling link |
| InvoiceRepo.GetLatestInvoiceByAnyId | src/repository/invoice.repo.js:13-40 | the loop returns the latest version; null exactly when the id is unknown; the result has no follower |
| InvoiceRepo.GetRootInvoiceByAnyId | src/repository/invoice.repo.js:42-60 | the loop returns the root version, reached through back-links; null exactly when the id is unknown |
| InvoiceRepo.WalkToLatest | src/repository/invoice.repo.js:33-37 | the forward loop stops at the version the forward walk specification names |
| InvoiceRepo.WalkToRoot | src/repository/invoice.repo.js:55-57 | the backward loop stops at the root the backward walk names, or fails on a back-link the index does not resolve |
| InvoiceRepo.LatestFromStep | src/repository/invoice.repo.js:34-36 | a forward walk that ends either stops at a version without follower or continues from its first follower |
| InvoiceRepo.RootFromStep | src/repository/invoice.repo.js:55-56 | a backward walk that ends continues from the version a resolvable back-link names |
| InvoiceRepo.ChainDistinct | src/repository/invoice.repo.js:13-60 | the versions of a linear chain are pairwise distinct |
| InvoiceRepo.ChainFits | src/repository/invoice.repo.js:13-60 | a linear chain is no longer than the table, so both walks end |
| InvoiceRepo.FollowerInChain | src/repository/invoice.repo.js:34 | on a linear chain the first follower of a version is the next version |
| InvoiceRepo.LinearChainWalksForward | src/repository/invoice.repo.js:34 | along a linear chain each version's first follower is the next version, and the last has none |
| InvoiceRepo.LinearChainWalksBack | src/repository/invoice.repo.js:47-56 | along a linear chain each back-link resolves through the index to the previous version |
| InvoiceRepo.LatestStep | src/repository/invoice.repo.js:34-36 | one forward step moves the walk to the first follower |
| InvoiceRepo.LatestAlongChain | src/repository/invoice.repo.js:33-37 | from any version of a linear chain the forward walk reaches its last version |
| InvoiceRepo.RootAlongChain | src/repository/invoice.repo.js:55-57 | from any version of a linear chain the backward walk reaches its first version |
| InvoiceRepo.ResolveFromAnyVersion | src/repository/invoice.repo.js:13-60 | every version of a linear chain resolves to the same root and the same latest as the root does |
| InvoiceRepo.LoneInvoice | src/repository/invoice.repo.js:29-39 | an invoice without back-link or follower is its own root and its own latest |
| CancellationRepo.GetCancellationById | src/repository/cancellation.repo.js:14-27 | the voucher with that id, none exactly when no voucher has it |
| CancellationRepo.CancellationsByInvoiceId | src/repository/cancellation.repo.js:32-48 | exactly the vouchers with that `inv_id` |
| CancellationRepo.FilterAppend | src/repository/cancellation.repo.js:34-44 | the filter keeps scan order: filtering a concatenation concatenates the filtered parts |
| CancellationRepo.FilterAt | src/repository/cancellation.repo.js:34-44 | a group member at scan position j comes right after the group members scanned before j |
| CancellationRepo.FirstIndex | src/repository/cancellation.repo.js:34-44 | the first scan position holding a voucher |
| CancellationRepo.ScannedBeforeComeFirst | src/repository/cancellation.repo.js:34-44 | group members scanned before a voucher's first position are returned before it |
| CancellationRepo.RootIsEarliest | src/repository/cancellation.repo.js:60 | the strict `<` reduce picks a least version that no earlier-scanned member of the group ties |
| CancellationRepo.LatestIsEarliest | src/repository/cancellation.repo.js:73 | the strict `>` reduce picks a greatest version that no earlier-scanned member of the group ties |
| CancellationRepo.MinVersionAt | src/repository/cancellation.repo.js:60 | the reduce returns a least version; a tie keeps the earliest |
| CancellationRepo.MaxVersionAt | src/repository/cancellation.repo.js:73 | the reduce returns a greatest version; a tie keeps the earliest |
| CancellationRepo.GetRootCancellationByAnyId | src/repository/cancellation.repo.js:53-61 | null exactly for an unknown id; otherwise a least-version voucher of the start's group, and on a tie the earliest scanned |
| CancellationRepo.GetLatestCancellationByAnyId | src/repository/cancellation.repo.js:66-74 | null exactly for an unknown id; otherwise a greatest-version voucher of the start's group, and on a tie the earliest scanned |
| CancellationRepo.RootStartLatestOrdered | src/repository/cancellation.repo.js:53-74 | root, start and latest share `inv_id`, and root.version ≤ start.version ≤ latest.version |
| CancellationRepo.ResolutionIgnoresBackLinks | src/repository/cancellation.repo.js:57-73 | two scans that agree on ids, `inv_id` and versions resolve alike, whatever their back-links |
| ProjectFlatsRepo.SplitAtFirstDash | src/repository/projectFlats.repo.js:18 | a block without dash is recovered from the flat id |
| ProjectFlatsRepo.FlatIdInjective | src/repository/projectFlats.repo.js:18 | blocks and floors without dashes give distinct flats distinct ids |
| ProjectFlatsRepo.FlatIdCollides | src/repository/projectFlats.repo.js:18 | two different triples that give the same id |
| ProjectFlatsRepo.NewFlat | src/repository/projectFlats.repo.js:14-29 | the item has the composed id, the input status, `loan_approved` false and no links |
| ProjectFlatsRepo.NewFlats | src/repository/projectFlats.repo.js:14-29 | one item per input flat, in input order |
| ProjectFlatsRepo.Chunks | src/repository/projectFlats.repo.js:32-40 | the batches concatenate back to the requests and each has 1 to 25 of them |
| ProjectFlatsRepo.ChunksFromCover | src/repository/projectFlats.repo.js:32-40 | the batches from any offset cover the rest of the requests in order |
| ProjectFlatsRepo.PutAllStores | src/repository/projectFlats.repo.js:32-40 | with distinct keys every put item is found under its key |
| ProjectFlatsRepo.PutAllKeeps | src/repository/projectFlats.repo.js:32-40 | keys no put touches keep their item |
| ProjectFlatsRepo.CreateProjectFlats | src/repository/projectFlats.repo.js:11-43 | sends exactly the 25-item batches of the new flats and stores them in order |
| ProjectFlatsRepo.PutRange | src/repository/projectFlats.repo.js:33-39 | one batch write stores its items in order |
| ProjectFlatsRepo.BuildProjectStats | src/repository/projectFlats.repo.js:45-67 | total is the number of flats, blocks the number of distinct blocks, each counter the number of flats with that status |
| ProjectFlatsRepo.StatsAddUp | src/repository/projectFlats.repo.js:50-58 | sold+booked+free is at most the total, and equal exactly when every status is one of the three |
| ProjectFlatsRepo.GetFlatsByProjectId | src/repository/projectFlats.repo.js:69-81 | exactly the flats stored under the project |
| ProjectFlatsRepo.GetFlatById | src/repository/projectFlats.repo.js:82-94 | the flat under that key, none exactly when absent |
| ProjectFlatsRepo.Stored | src/repository/projectFlats.repo.js:213-234 | an update reads the stored item, or a blank one for a missing key |
| ProjectFlatsRepo.WithStatus | src/repository/projectFlats.repo.js:96-116 | sets the status and changes no layout, loan or link field |
| ProjectFlatsRepo.WithInvoice | src/repository/projectFlats.repo.js:270-296 | sets both invoice links and the status; cancellation links and loan flag untouched |
| ProjectFlatsRepo.WithCancellation | src/repository/projectFlats.repo.js:297-318 | sets both cancellation links; status, invoice links and loan flag untouched |
| ProjectFlatsRepo.FreedOfInvoice | src/repository/projectFlats.repo.js:419-443 | `free`, both invoice links removed, cancellation links and loan flag untouched |
| ProjectFlatsRepo.FreedOfCancellation | src/repository/projectFlats.repo.js:353-388 | `free`, both cancellation links removed, invoice links and loan flag untouched |
| ProjectFlatsRepo.WithLatestInvoice | src/repository/projectFlats.repo.js:213-234 | sets the latest invoice and the status; the root invoice and everything else unchanged |
| ProjectFlatsRepo.WithLatestCancellation | src/repository/projectFlats.repo.js:390-417 | sets only the latest cancellation; root and status unchanged |
| ProjectFlatsRepo.WithLoanApproved | src/repository/projectFlats.repo.js:445-477 | sets `loan_approved` true and nothing else, status included |
| ProjectFlatsRepo.StoredConsistent | src/repository/projectFlats.repo.js:213-234 | in a consistent table the item an update reads is consistent and keyed right |
| ProjectFlatsRepo.DetachCancellationFreesInvoicedFlat | src/repository/projectFlats.repo.js:353-388 | a flat with an invoice link becomes `free` with that link kept |
| ProjectFlatsRepo.GetLoanApprovalStatus | src/repository/projectFlats.repo.js:479-500 | no flat for the invoice is an error; otherwise the flag, false when missing |
| ProjectFlatsRepo.UpdateFlatStatus | src/repository/projectFlats.repo.js:96-116 | upserts the status, and `booked`/`sold` keep the table consistent |
| ProjectFlatsRepo.AttachInvoiceAndUpdateStatus | src/repository/projectFlats.repo.js:270-296 | upserts both invoice links and the status, keeping the table consistent |
| ProjectFlatsRepo.AttachCancellation | src/repository/projectFlats.repo.js:297-318 | upserts both cancellation links, keeping the table consistent |
| ProjectFlatsRepo.UpdateLatestInvoiceByCurrentInvoiceId | src/repository/projectFlats.repo.js:200-235 | no flat found fails; a stale current id fails the compare-and-set with nothing changed; otherwise only latest id and status change |
| ProjectFlatsRepo.DetachInvoiceByCurrentInvoiceId | src/repository/projectFlats.repo.js:320-351 | behind the same guard the flat becomes `free` without invoice links, keeping the table consistent |
| ProjectFlatsRepo.DetachCancellationByCurrentCancellationId | src/repository/projectFlats.repo.js:353-388 | behind the guard the flat becomes `free` without cancellation links; consistency kept when it has no invoice |
| ProjectFlatsRepo.UpdateLatestCancellationByCurrentCancellationId | src/repository/projectFlats.repo.js:390-417 | overwrites the latest cancellation with no guard and answers true |
| ProjectFlatsRepo.ResetFlatToFree | src/repository/projectFlats.repo.js:419-443 | a missing key part is refused; otherwise `free` and invoice links removed, nothing else |
| ProjectFlatsRepo.ApproveLoanForFlat | src/repository/projectFlats.repo.js:445-477 | refused for a missing key part or an approved flat; otherwise sets the flag, status unchanged |
| ProjectFlatsRepo.SecondApprovalRefused | src/repository/projectFlats.repo.js:459-473 | an approved flat cannot be approved again |
| ProjectFlatsRepo.ListKeys | src/repository/projectFlats.repo.js:119-130 | lists every key of the project exactly once |
| ProjectFlatsRepo.DeleteFlatsByProjectId | src/repository/projectFlats.repo.js:118-144 | deletes exactly the project's flats in batches of at most 25 |
| ProjectFlatsRepo.DeleteInBatches | src/repository/projectFlats.repo.js:133-141 | the batches sent are the slices of 25 in order, and together they delete exactly the listed keys |
| ProjectFlatsRepo.DeleteRange | src/repository/projectFlats.repo.js:133-141 | one batch removes exactly its keys |
| ProjectRepo.AfterSale | src/repository/project.repo.js:78-79 | sold +1, booked −1, sold+booked+free and identity unchanged |
| ProjectRepo.AfterBooking | src/repository/project.repo.js:97-98 | booked +1, free −1, sold+booked+free and identity unchanged |
| ProjectRepo.CountersCanGoNegative | src/repository/project.repo.js:78-98 | a decrement below zero goes through |
| ProjectRepo.CreateProject | src/repository/project.repo.js:11-39 | stores the given counters unchanged with the creation time |
| ProjectRepo.IncrementProjectSoldCount | src/repository/project.repo.js:71-88 | an unknown project fails and changes nothing; otherwise the sale move |
| ProjectRepo.IncrementProjectBookedCount | src/repository/project.repo.js:90-107 | an unknown project fails and changes nothing; otherwise the booking move |
| ProjectRepo.GetProjectIdAndName | src/repository/project.repo.js:54-69 | one id/name pair per project, same count and order |
| ProjectRepo.DeleteProject | src/repository/project.repo.js:109-118 | removes exactly that project |
| BookingsRepo.CreateBookedFlat | src/repository/bookings.repo.js:9-31 | puts the booking under the flat's key, replacing any earlier one |
| BookingsRepo.GetBookedFlat | src/repository/bookings.repo.js:33-42 | the booking, none exactly when absent |
| BookingsRepo.AddToPaid | src/repository/bookings.repo.js:44-56 | `paid` grows by the amount and nothing else changes |
| BookingsRepo.IncrementPaidAmount | src/repository/bookings.repo.js:44-56 | only that booking changes |
| BookingsRepo.AddToPaidAccumulates | src/repository/bookings.repo.js:44-56 | two increments add up to one of their sum |
| PaymentsRepo.ProjectFlatKeyInjective | src/repository/payments.repo.js:31 | project ids without `#` give distinct flats distinct keys |
| PaymentsRepo.ProjectFlatKeyCollides | src/repository/payments.repo.js:31 | with a `#` in the project id two different flats share a key |
| PaymentsRepo.NewPayment | src/repository/payments.repo.js:29-39 | the stored item carries the given fields and `projectId#flatId` |
| PaymentsRepo.AddPayment | src/repository/payments.repo.js:15-44 | appends exactly that item and returns its id |
| PaymentsRepo.WithFlatKey | src/repository/payments.repo.js:59-73 | exactly the payments under the key |
| PaymentsRepo.WithFlatKeyAppend | src/repository/payments.repo.js:59-73 | the listing keeps table order: listing a concatenation concatenates the listed parts |
| PaymentsRepo.GetPaymentsByFlat | src/repository/payments.repo.js:59-73 | exactly the payments of that flat |
| PaymentsRepo.Page | src/repository/payments.repo.js:99-106 | the items at positions [offset, offset+2) of the scan, empty past the end |
| PaymentsRepo.PageCount | src/repository/payments.repo.js:117 | `ceil(n / 2)` |
| PaymentsRepo.PastLastPageEmpty | src/repository/payments.repo.js:99-106 | a page after the last one is empty |
| PaymentsRepo.CollectPage | src/repository/payments.repo.js:88-109 | the scan loop collects exactly that page and counts every item |
| PaymentsRepo.SortNewestFirst | src/repository/payments.repo.js:112 | the page newest first, same items |
| PaymentsRepo.InsertNewestFirst | src/repository/payments.repo.js:112 | one insertion step keeps the order and adds exactly the new item |
| PaymentsRepo.InsertKeepsNewestFirst | src/repository/payments.repo.js:112 | an item placed after the newer ones and before the older ones keeps newest-first order |
| PaymentsRepo.GetAllPayments | src/repository/payments.repo.js:80-120 | a page of at most 2, newest first, with total count, page count and page number |
| PaymentsRepo.Matching | src/repository/payments.repo.js:149-155 | exactly the payments one of whose five fields contains the term |
| PaymentsRepo.SearchPayments | src/repository/payments.repo.js:133-193 | the page of the matches for the lower-cased term; the total counts only matches |
| PaymentsRepo.SearchIsCaseSensitiveOnFields | src/repository/payments.repo.js:142-155 | an upper-case field does not match its own text |
| KycRepo.NewKyc | src/repository/kyc.repo.js:29-44 | keyed by the customer id, `pending`, the given fields |
| KycRepo.CreateKyc | src/repository/kyc.repo.js:15-54 | puts that item and returns it |
| KycRepo.GetKycById | src/repository/kyc.repo.js:86-94 | the item, none exactly when absent |
| KycRepo.ApprovedRecord | src/repository/kyc.repo.js:66-84 | status `approved` and nothing else changed |
| KycRepo.ApproveKycCustomer | src/repository/kyc.repo.js:66-84 | stores and returns the approved item |
| KycRepo.DocumentKeys | src/repository/kyc.repo.js:109-116 | exactly the non-empty document keys, at most four; empty exactly when all are empty |
| KycRepo.DocumentKeysInOrder | src/repository/kyc.repo.js:109-116 | aadhaar first, then pan |
| KycRepo.DeleteKycCustomer | src/repository/kyc.repo.js:96-141 | unknown id: none and no change; otherwise removes the item and returns it as it was, with its keys |
| WpRepo.UpsertPhoneDate | src/repository/wp.repo.js:6-18 | one date per phone, last write wins |
| WpRepo.GetScheduleByPhone | src/repository/wp.repo.js:19-28 | the date, none exactly when absent |
| WpRepo.AfterDelete | src/repository/wp.repo.js:30-50 | the phone is gone, other phones untouched, a falsy phone changes nothing |
| WpRepo.DeleteScheduleByPhone | src/repository/wp.repo.js:30-50 | always answers true, an absent phone included, and leaves the table as `AfterDelete` describes |
| WpRepo.DeleteScheduleByPhoneAsWritten | src/repository/wp.repo.js:1-50 | a truthy phone fails on the missing `DeleteCommand` |
| WpRepo.DeleteAsWrittenKeepsSchedule | src/repository/wp.repo.js:35 | as written, a stored schedule survives the delete |
| Ledger.PaidOnLogAppend | src/repository/payments.repo.js:31 | a new payment adds its amount to its own flat's sum only |
| Ledger.RecordedPaymentKeepsLedger | src/controllers/paymentsController.js:35-48 | raising `paid` by a payment's amount and recording it keeps every booking balanced |
| Ledger.NewBookingKeepsLedger | src/controllers/bookedController.js:19-45 | a new booking with its first payment keeps every booking balanced |
| Ledger.UnrecordedIncrementBreaksLedger | src/controllers/paymentsController.js:35-38 | raising `paid` without recording a payment unbalances the ledger |
| InvoiceController.AttachStatus | src/controllers/invoiceController.js:38-39 | `sold` exactly when advance is half the total or more, else `booked` |
| InvoiceController.AttachInvoiceToFlat | src/controllers/invoiceController.js:5-69 | 400 with no write for a missing field (whatever the chains) or a non-positive total; 404 for an unknown invoice; otherwise links the chain's latest and root with the 50% status |
| InvoiceController.GetFlatCustomerInvoiceDetails | src/controllers/invoiceController.js:71-121 | 400 without keys, 404 without a flat, invoice link or invoice, otherwise the invoice's customer and amounts |
| InvoiceController.SwapStatus | src/controllers/invoiceController.js:160-164 | the status from the new invoice's ratio, with no positivity check |
| InvoiceController.ZeroTotalSwapsToSold | src/controllers/invoiceController.js:160-164 | total 0 with advance 0 gives `sold` |
| InvoiceController.LoanApprovalIgnored | src/controllers/invoiceController.js:166-170 | the loan override never changes the status |
| InvoiceController.SwapLatestInvoice | src/controllers/invoiceController.js:122-204 | null detaches; unknown id 404; stale id 409 with no change; no linked flat 200 with no change; otherwise latest link and status; 409 impossible when the index agrees |
| InvoiceController.DeleteFlatInvoiceLink | src/controllers/invoiceController.js:206-238 | over the intended schedule delete: 400 without keys; otherwise removes the phone's schedule and frees the flat of its invoice |
| InvoiceController.DeleteFlatInvoiceLinkAsWritten | src/controllers/invoiceController.js:206-238 | as written: a given phone makes the schedule delete throw, so 500 and the flat is not reset; without a phone the flat is reset to free |
| CancellationController.AttachCancellationToFlat | src/controllers/cancellationController.js:6-65 | over the intended schedule delete: 400 with no write for a missing field; the schedule is removed before the 404; otherwise the flat is freed of its invoice and linked to the group's latest and root |
| CancellationController.AttachCancellationToFlatAsWritten | src/controllers/cancellationController.js:10-19 | as written: 400 exactly for a missing field, otherwise 500 from the schedule delete, and nothing written |
| CancellationController.FreeAndLinkCancellation | src/controllers/cancellationController.js:44-52 | the flat is freed of its invoice, then linked to the given latest and root vouchers |
| CancellationController.GetFlatCustomerCancellationDetails | src/controllers/cancellationController.js:67-117 | 400 without keys, 404 without a flat, link or voucher, otherwise the customer and amounts, missing amounts 0 |
| CancellationController.SwapLatestCancellation | src/controllers/cancellationController.js:119-201 | null, undefined or "" detaches behind a guard whose failure is 500; unknown id 404; otherwise an unguarded overwrite; 500 impossible when the index agrees |
| PaymentsController.ProjectNameById | src/controllers/paymentsController.js:38 | the project's name, none exactly when the project is unknown |
| PaymentsController.Promotes | src/controllers/paymentsController.js:51-54 | promotion exactly when half is paid and the flat is not yet `sold` |
| PaymentsController.PromotesAtMostOnce | src/controllers/paymentsController.js:51 | a `sold` flat is never promoted again |
| PaymentsController.AddPaymentController | src/controllers/paymentsController.js:7-69 | 404 and 400 change nothing; otherwise `paid` grows by the amount, one payment is recorded, the one-time promotion happens, and the ledger stays balanced |
| PaymentsController.RecordPayment | src/controllers/paymentsController.js:34-48 | `paid` grows by the amount and exactly one payment for the flat is appended under the booking's customer; the ledger stays balanced |
| PaymentsController.PromoteToSold | src/controllers/paymentsController.js:51-54 | on an existing project the sold counter moves and the flat becomes `sold`; a missing project changes nothing |
| PaymentsController.AddPaymentControllerAsWritten | src/controllers/paymentsController.js:35-38 | as written, a payment under the cap raises `paid`, records nothing and answers 500, breaking the ledger |
| PaymentsController.NormalisePage | src/controllers/paymentsController.js:107-112 | at least 1; a numeral of at least 1 is kept; absent or empty gives 1 |
| PaymentsController.NormalisePageDecimal | src/controllers/paymentsController.js:107-112 | a page number written in decimal comes back unchanged |
| PaymentsController.GetAllPaymentsController | src/controllers/paymentsController.js:104-134 | 200 with the normalised page of all payments, newest first, the total count and the page count |
| PaymentsController.SearchPaymentsController | src/controllers/paymentsController.js:148-186 | 400 exactly for a missing or blank query; otherwise the normalised page of the matches, newest first, the matching count and the page count |
| PaymentsController.GetFlatPaymentHistory | src/controllers/paymentsController.js:72-101 | 400 exactly without keys; otherwise exactly the flat's payments and their count |
| BookedController.BookFlatController | src/controllers/bookedController.js:6-55 | 400 and no write exactly for a missing customer, zero amount or zero total; the booking stores the customer, total and amount; the flat ends `sold` from half paid on, else `booked`; the counters move; one payment without project name; ledger kept |
| BookedController.BookAndMarkFlat | src/controllers/bookedController.js:18-32 | the booking is written and the flat ends `sold` from half paid on, else `booked`; flat consistency is kept |
| BookedController.CountOnProject | src/controllers/bookedController.js:31-36 | the sold or the booked counter moves on an existing project; a missing project is an error with no change |
| BookedController.GetBookedFlatController | src/controllers/bookedController.js:56-74 | 404 exactly when there is no booking |
| KycController.ObjectKey | src/controllers/kycController.js:34-65 | `kyc/<customerId>/<doc>` |
| KycController.ObjectKeyInjective | src/controllers/kycController.js:34-65 | two customers never share a document key |
| KycController.GeneratePresignedKeys | src/controllers/kycController.js:11-73 | 400 exactly for a disallowed Aadhaar or PAN type or a disallowed voter or other type that was given; otherwise the four keys, voter and other only when their type is given |
| KycController.OptionalTypesChecked | src/controllers/kycController.js:26-31 | voter and other types are checked only when given |
| KycController.UploadedObjectsDeleted | src/controllers/kycController.js:46-67 | a customer saved with the handed-out keys is deleted with exactly those objects, in order |
| KycController.SaveKyc | src/controllers/kycController.js:75-116 | 400 and no write exactly when an Aadhaar or PAN number or key is missing; otherwise a `pending` record |
| KycController.ApproveKyc | src/controllers/kycController.js:133-167 | 400 without id, 404 for an unknown customer, otherwise approves it |
| KycController.DeleteKycCustomerController | src/controllers/kycController.js:169-202 | 400 without id, 404 for an unknown customer, otherwise removes it and returns it |
| ScheduleController.DateShapeParts | src/controllers/scheduleController.js:15 | the shape test is four digits, a dash, two digits, a dash, two digits, nothing more |
| ScheduleController.MonthNotRangeChecked | src/controllers/scheduleController.js:15 | month 13 passes; a short or padded date fails |
| ScheduleController.UpsertSchedule | src/controllers/scheduleController.js:3-37 | 400 and no write exactly for a missing field or a misshapen date; otherwise stores and echoes phone and date |
| ScheduleController.UpsertThenGet | src/repository/wp.repo.js:6-28 | a saved date is what the next read gives; other phones unaffected |
| ScheduleController.GetScheduleByPhoneController | src/controllers/scheduleController.js:39-71 | 400 exactly without a phone; otherwise 200, with no data for an unknown phone |
| ProjectController.Slug | src/controllers/projectController.js:26-27 | no whitespace and no upper-case letter, no longer than the name |
| ProjectController.SlugChars | src/controllers/projectController.js:27 | every slug character is a dash or a character of the name |
| ProjectController.SlugOfOneWord | src/controllers/projectController.js:26-27 | a name without whitespace is only lower-cased |
| ProjectController.ProjectIdFor | src/controllers/projectController.js:26-27 | the slug, a dash, then at most six characters of the UUID |
| ProjectController.ProjectIdHasNoWhitespace | src/controllers/projectController.js:26-27 | the project id has no whitespace |
| ProjectController.ProjectIdKeepsHash | src/controllers/projectController.js:26-27 | a `#` in a project's name stays in its id |
| ProjectController.PutAllNewKeys | src/repository/projectFlats.repo.js:32-40 | every new key comes from one of the puts |
| ProjectController.CreateProjectController | src/controllers/projectController.js:13-57 | 400 and no write exactly for a missing name or an empty or absent flats array; otherwise the project's counters equal the flat statistics and the flats are stored under that same id |
| ProjectController.GetProjectFlatsController | src/controllers/projectController.js:80-105 | 400 exactly without an id; otherwise exactly the project's flats |

## Left out

- Authentication, JWT and password hashing, user handlers and middleware: outside the record logic.
- Signing of upload URLs, `crypto.randomUUID` and the S3 object deletion: foreign calls. Only the validation, the key strings and the key list are modelled. The customer id and the UUID are parameters.
- Analytics handlers and repository: they only combine counts the store computes.
- Routing, app set-up and client construction.
- DynamoDB paging (`LastEvaluatedKey`): a scan is one sequence.
- Index lag beyond the `hit` input, and atomicity across tables: each write is one atomic step, and interleaved requests are not modelled.
- Floating point: the 50% rule is over the integers. The `toFixed` percentage string is not modelled.
- Timestamps: they are plain integers, and the newest-first sort compares them directly instead of parsing dates.
- Unicode case mapping: lower-casing changes only `A`-`Z`.
- JavaScript coercions: amounts are numbers, `Number(x || 0)` is `AmountOrZero`, and a request field of the wrong type is not modelled.
- `updateLatestCancellationByCurrentInvoiceId` (projectFlats.repo.js:237-268): no handler calls it.
- The unused `referencedIds` set (invoice.repo.js:19-26).
- `getAllProjects`, `getAllKycCustomers`, `getPaymentById` and `getAllProjectsController`: plain scans and point reads with no logic.
- The batch writer's refusal of duplicate keys in one batch: `PutAll` lets the later put win.
- Response messages: only status codes, the success flag and the data are modelled. A failure always carries `success = false`, although the 404s at invoiceController.js:20 and cancellationController.js:37 and the 400s at kycController.js:20-30 send no such field; the 200 of the upload-URL handler (kycController.js:46-68) sends none either, and the 200 of the cancellation attach (cancellationController.js:54-57) sends no data, where the model returns the flat's new status `free`.
- Ledger.LedgerBalanced: holds only for bookings whose project id has no `#`; the ledger results of BookFlatController and AddPaymentController say nothing about a store holding such a booking, because `projectId#flatId` keys of different flats can then collide.
- PaymentsRepo.GetPaymentsByFlat: the index query's newest-first order is not modelled. Only membership is stated.
- PaymentsRepo.SortNewestFirst: stability and ties are not stated. The result is newest first and a permutation of the page.
- PaymentsRepo.AddPayment: the payment id is a parameter, assumed fresh. A repeated id would replace the earlier item.
- ProjectFlatsRepo.Stored: a blank item's absent attributes read as "", 0 or none.
- InvoiceRepo.GetLatestInvoiceByAnyId: requires the walk to end within the table's size. A cyclic chain loops forever in the source.
- InvoiceRepo.GetRootInvoiceByAnyId: same requirement. A dangling back-link is an error result where the source throws on `undefined`.
- InvoiceController.AttachInvoiceToFlat: for a request that passes the field check, requires both walks from `invoiceId` to end; a request missing a field is answered 400 whatever the chains.
- ProjectFlatsRepo.DetachCancellationByCurrentCancellationId: table consistency is promised only when the flat has no invoice link, because the source frees the flat and keeps that link.
- BookedController.BookFlatController: keeps the ledger only when the flat had no earlier payments. The source never checks that the flat was free, or that `amount <= totalPayment`.
- KycController.SaveKyc: an empty customer id is answered 500 with no write, which is how the store refuses an empty key.

## Findings

| source | as written | input that shows it | evidently intended | confidence | as-written member | corrected member |
|---|---|---|---|---|---|---|
| src/repository/wp.repo.js:1,35 | `DeleteCommand` is used but not imported, so any truthy phone throws and the schedule stays; the handlers calling it then answer 500 (`CancellationController.AttachCancellationToFlatAsWritten`, `InvoiceController.DeleteFlatInvoiceLinkAsWritten`), and the handler rows model the corrected delete | `deleteScheduleByPhone("9999")` with a schedule stored for that phone | remove the phone's schedule, ignoring an absent one | high, not executed | WpRepo.DeleteScheduleByPhoneAsWritten | WpRepo.DeleteScheduleByPhone |
| src/controllers/paymentsController.js:38 | calls `projectRepo.getProjectNameById`, which project.repo.js does not export; this throws after `paid` was raised, so no payment is recorded | any payment under the cap on an existing booking | look up the project's name and record the payment | high, not executed | PaymentsController.AddPaymentControllerAsWritten | PaymentsController.AddPaymentController |
