/**
 * The `flat_payments` table (src/repository/payments.repo.js): payments are appended and
 * never changed; the admin listing and the search page through one scan with an offset.
 *
 * A scan is the table in scan order (`db.payments`); DynamoDB's own result paging is one
 * pass over that sequence.
 */
module PaymentsRepo {
  import opened Wrappers
  import opened Records
  import opened Text
  import opened Db

  /** Page size of the listing and the search. */
  const Limit: nat := 2

  /** `${projectId}#${flatId}`: the partition key of `projectFlatIndex`. */
  function ProjectFlatKey(projectId: string, flatId: string): string
  {
    projectId + "#" + flatId
  }

  /** The key names its flat as long as the project id has no '#'. */
  lemma ProjectFlatKeyInjective(projectId: string, flatId: string, projectId': string, flatId': string)
    requires '#' !in projectId && '#' !in projectId'
    requires ProjectFlatKey(projectId, flatId) == ProjectFlatKey(projectId', flatId')
    ensures projectId == projectId' && flatId == flatId'
  {
    var u := ProjectFlatKey(projectId, flatId);
    assert forall j :: 0 <= j < |projectId| ==> u[j] == projectId[j];
    assert forall j :: 0 <= j < |projectId'| ==> u[j] == projectId'[j];
    assert u[|projectId|] == '#' && u[|projectId'|] == '#';
    assert |projectId| == |projectId'|;
    assert projectId == u[..|projectId|] && projectId' == u[..|projectId'|];
    assert flatId == u[|projectId| + 1..] && flatId' == u[|projectId'| + 1..];
  }

  /** With a '#' in the project id two different flats can share a key. */
  lemma ProjectFlatKeyCollides()
    ensures ProjectFlatKey("q#s", "A-1-1") == ProjectFlatKey("q", "s#A-1-1")
    ensures "q#s" != "q"
  {
  }

  /** The item `addPayment` puts. */
  function NewPayment(
    paymentId: string, projectId: string, projectName: Option<string>, flatId: string,
    customer: PaymentCustomer, amount: int, summary: string, now: Timestamp)
    : (p: Payment)
    ensures p.paymentId == paymentId && p.projectFlatKey == ProjectFlatKey(projectId, flatId)
    ensures p.projectId == projectId && p.projectName == projectName && p.flatId == flatId
    ensures p.customer == customer && p.amount == amount && p.summary == summary && p.createdAt == now
  {
    Payment(paymentId, ProjectFlatKey(projectId, flatId), projectId, projectName, flatId,
            customer, amount, summary, now)
  }

  /**
   * `addPayment` (payments.repo.js:15-44): appends the payment and returns its id;
   * `paymentId` and `now` are the generated uuid and timestamp.
   */
  method AddPayment(
    db: Store, paymentId: string, projectId: string, projectName: Option<string>, flatId: string,
    customer: PaymentCustomer, amount: int, summary: string, now: Timestamp)
    returns (id: string)
    modifies db`payments
    ensures id == paymentId
    ensures db.payments == old(db.payments)
              + [NewPayment(paymentId, projectId, projectName, flatId, customer, amount, summary, now)]
  {
    db.payments := db.payments
                   + [NewPayment(paymentId, projectId, projectName, flatId, customer, amount, summary, now)];
    id := paymentId;
  }

  /** The payments listed under `key`, in table order. */
  function WithFlatKey(ps: seq<Payment>, key: string): (r: seq<Payment>)
    ensures |r| <= |ps|
    ensures forall p :: p in r <==> p in ps && p.projectFlatKey == key
  {
    if ps == [] then []
    else WithFlatKey(ps[..|ps| - 1], key)
         + (if ps[|ps| - 1].projectFlatKey == key then [ps[|ps| - 1]] else [])
  }

  /** Listing a concatenation lists each part, in order: the table order is kept. */
  lemma {:induction false} WithFlatKeyAppend(a: seq<Payment>, b: seq<Payment>, key: string)
    ensures WithFlatKey(a + b, key) == WithFlatKey(a, key) + WithFlatKey(b, key)
    decreases |b|
  {
    if b == [] {
      assert a + b == a;
    } else {
      var n := |b| - 1;
      assert (a + b)[..|a + b| - 1] == a + b[..n] && (a + b)[|a + b| - 1] == b[n];
      WithFlatKeyAppend(a, b[..n], key);
    }
  }

  /** `getPaymentsByFlat` (payments.repo.js:59-73): the flat's payments. */
  function GetPaymentsByFlat(ps: seq<Payment>, projectId: string, flatId: string): (r: seq<Payment>)
    ensures forall p :: p in r <==> p in ps && p.projectFlatKey == ProjectFlatKey(projectId, flatId)
  {
    WithFlatKey(ps, ProjectFlatKey(projectId, flatId))
  }

  // ---------------------------------------------------------------------------
  // Offset pagination.

  function Min(a: int, b: int): int
  {
    if a < b then a else b
  }

  /** `x` moved into `[0, hi]`. */
  function Clamp(x: int, hi: nat): (r: nat)
    ensures r <= hi
  {
    if x < 0 then 0 else if x > hi then hi else x
  }

  /** `ps` holds the rows of the page of `rows` that starts at `offset`, in some order. */
  ghost predicate HoldsPage(ps: seq<Payment>, rows: seq<Payment>, offset: int)
  {
    multiset(ps) == multiset(Page(rows, offset))
  }

  /** The scan position where page `page` starts: `(page - 1) * LIMIT`. */
  function PageOffset(page: int): int
  {
    (page - 1) * Limit
  }

  /**
   * The items a pass over `rows` picks: those at scan positions `offset`,
   * `offset + 1`, ... while fewer than `Limit` are picked.
   */
  function Page<T>(rows: seq<T>, offset: int): (r: seq<T>)
    ensures |r| <= Limit
    ensures |r| == Min(Limit, |rows| - Clamp(offset, |rows|))
    ensures forall j :: 0 <= j < |r| ==> r[j] == rows[Clamp(offset, |rows|) + j]
    ensures offset >= |rows| ==> r == []
  {
    var lo := Clamp(offset, |rows|);
    rows[lo..Min(lo + Limit, |rows|)]
  }

  /** `Math.ceil(n / LIMIT)` */
  function PageCount(n: nat): (pages: nat)
    ensures pages * Limit >= n
    ensures pages > 0 ==> (pages - 1) * Limit < n
  {
    (n + Limit - 1) / Limit
  }

  /** A page after the last one is empty. */
  lemma PastLastPageEmpty<T>(rows: seq<T>, page: int)
    requires page > PageCount(|rows|)
    ensures Page(rows, PageOffset(page)) == []
  {
    assert PageOffset(page) >= PageCount(|rows|) * Limit;
  }

  /**
   * The scan loop of `getAllPayments` and `searchPayments`: counts every item and keeps
   * the ones at positions `offset`.. while fewer than `Limit` are kept.
   */
  method CollectPage(rows: seq<Payment>, offset: int) returns (items: seq<Payment>, totalCount: nat)
    ensures items == Page(rows, offset)
    ensures totalCount == |rows|
  {
    items := [];
    var scanned := 0;
    totalCount := 0;
    for i := 0 to |rows|
      invariant scanned == i && totalCount == i
      invariant items == Page(rows[..i], offset)
    {
      var lo := Clamp(offset, i);
      assert rows[..i + 1][..i] == rows[..i];
      if scanned >= offset && |items| < Limit {
        assert lo == Clamp(offset, i + 1);
        items := items + [rows[i]];
      } else if scanned >= offset {
        assert lo == Clamp(offset, i + 1);
      }
      scanned := scanned + 1;
      totalCount := totalCount + 1;
    }
    assert rows[..|rows|] == rows;
  }

  /** `createdAt` never increases along the sequence. */
  predicate NewestFirst(s: seq<Payment>)
  {
    forall i, j :: 0 <= i < j < |s| ==> s[i].createdAt >= s[j].createdAt
  }

  /**
   * `items.sort((a, b) => new Date(b.createdAt) - new Date(a.createdAt))`, as an
   * insertion sort that places each item after the ones at least as new.
   */
  method SortNewestFirst(items: seq<Payment>) returns (r: seq<Payment>)
    ensures NewestFirst(r)
    ensures multiset(r) == multiset(items)
  {
    r := [];
    for i := 0 to |items|
      invariant NewestFirst(r)
      invariant multiset(r) == multiset(items[..i])
    {
      assert items[..i + 1] == items[..i] + [items[i]];
      r := InsertNewestFirst(r, items[i]);
    }
    assert items[..|items|] == items;
  }

  /** Inserts `x` after the items at least as new as it. */
  method InsertNewestFirst(r: seq<Payment>, x: Payment) returns (r': seq<Payment>)
    requires NewestFirst(r)
    ensures NewestFirst(r')
    ensures multiset(r') == multiset(r) + multiset{x}
  {
    var j := |r|;
    while j > 0 && r[j - 1].createdAt < x.createdAt
      invariant 0 <= j <= |r|
      invariant forall k :: j <= k < |r| ==> r[k].createdAt < x.createdAt
      decreases j
    {
      j := j - 1;
    }
    r' := r[..j] + [x] + r[j..];
    InsertKeepsNewestFirst(r, j, x);
    assert r == r[..j] + r[j..];
  }

  /** Putting `x` between the items at least as new and the older ones keeps the order. */
  lemma InsertKeepsNewestFirst(r: seq<Payment>, j: nat, x: Payment)
    requires j <= |r| && NewestFirst(r)
    requires forall k :: 0 <= k < j ==> r[k].createdAt >= x.createdAt
    requires forall k :: j <= k < |r| ==> r[k].createdAt < x.createdAt
    ensures NewestFirst(r[..j] + [x] + r[j..])
  {
    var r' := r[..j] + [x] + r[j..];
    assert forall k :: 0 <= k < j ==> r'[k] == r[k];
    assert r'[j] == x;
    assert forall k :: j < k < |r'| ==> r'[k] == r[k - 1];
  }

  /** What both listings return. */
  datatype PaymentPage = PaymentPage(
    payments: seq<Payment>, totalCount: nat, totalPages: nat, currentPage: int)

  /** `getAllPayments(page)` (payments.repo.js:80-120). */
  method GetAllPayments(db: Store, page: int) returns (res: PaymentPage)
    ensures HoldsPage(res.payments, db.payments, PageOffset(page))
    ensures NewestFirst(res.payments) && |res.payments| <= Limit
    ensures res.totalCount == |db.payments| && res.totalPages == PageCount(|db.payments|)
    ensures res.currentPage == page
  {
    var items, totalCount := CollectPage(db.payments, PageOffset(page));
    var sorted := SortNewestFirst(items);
    assert |sorted| == |multiset(sorted)| == |multiset(items)| == |items|;
    res := PaymentPage(sorted, totalCount, PageCount(totalCount), page);
  }

  /** The search filter: the term occurs in one of the five fields, as stored. */
  predicate Matches(p: Payment, q: string)
  {
    || Contains(p.paymentId, q)
    || Contains(p.projectId, q)
    || (p.projectName.Some? && Contains(p.projectName.value, q))
    || Contains(p.flatId, q)
    || Contains(p.customer.name, q)
  }

  /** The payments the filtered scan returns, in scan order. */
  function Matching(ps: seq<Payment>, q: string): (r: seq<Payment>)
    ensures |r| <= |ps|
    ensures forall p :: p in r <==> p in ps && Matches(p, q)
  {
    if ps == [] then []
    else Matching(ps[..|ps| - 1], q) + (if Matches(ps[|ps| - 1], q) then [ps[|ps| - 1]] else [])
  }

  /**
   * `searchPayments(query, page)` (payments.repo.js:133-193): the term is lower-cased,
   * the stored fields are not.
   */
  method SearchPayments(db: Store, query: string, page: int) returns (res: PaymentPage)
    ensures HoldsPage(res.payments, Matching(db.payments, ToLower(query)), PageOffset(page))
    ensures forall p :: p in res.payments ==> p in db.payments && Matches(p, ToLower(query))
    ensures NewestFirst(res.payments) && |res.payments| <= Limit
    ensures res.totalCount == |Matching(db.payments, ToLower(query))|
    ensures res.totalPages == PageCount(res.totalCount) && res.currentPage == page
  {
    var search := ToLower(query);
    var rows := Matching(db.payments, search);
    var items, totalCount := CollectPage(rows, PageOffset(page));
    var sorted := SortNewestFirst(items);
    assert |sorted| == |multiset(sorted)| == |multiset(items)| == |items|;
    forall p | p in sorted
      ensures p in db.payments && Matches(p, search)
    {
      assert p in multiset(items);
      var j :| 0 <= j < |items| && items[j] == p;
      assert p == rows[Clamp(PageOffset(page), |rows|) + j];
    }
    res := PaymentPage(sorted, totalCount, PageCount(totalCount), page);
  }

  /** A term with an upper-case letter in it finds nothing in fields that hold it as typed. */
  lemma SearchIsCaseSensitiveOnFields()
    ensures !Matches(Payment("P1", "AB#C-1", "AB", None, "C-1", PaymentCustomer("c", "Ravi"),
                             5, "", 0), ToLower("Ravi"))
  {
    var p := Payment("P1", "AB#C-1", "AB", None, "C-1", PaymentCustomer("c", "Ravi"), 5, "", 0);
    var q := ToLower("Ravi");
    assert q == "ravi";
    assert !Contains(p.customer.name, q) by {
      assert !OccursAt("Ravi", q, 0) by { assert "Ravi"[0] != q[0]; }
    }
  }
}
