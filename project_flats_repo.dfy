/**
 * The `project_flats` table (src/repository/projectFlats.repo.js): bulk creation of a
 * project's flats, the project statistics, and the updates that move a flat between
 * `free`, `booked` and `sold` and link it to its current invoice or cancellation.
 *
 * A DynamoDB update on a key with no item creates the item, so every update below starts
 * from `Stored(flats, k)`: the stored flat, or a blank one holding only its key.
 */
module ProjectFlatsRepo {
  import opened Wrappers
  import opened Records
  import opened Db

  /** DynamoDB's limit on the number of requests in one batch write. */
  const BatchLimit: nat := 25

  /** One element of the `flats` array a project is created with. */
  datatype FlatInput = FlatInput(
    block: string, floor: string, flatno: string, sqft: int, bhk: int, status: FlatStatus)

  /** `${block}-${floor}-${flatno}` */
  function FlatIdOf(block: string, floor: string, flatno: string): string
  {
    block + "-" + floor + "-" + flatno
  }

  /** In `a + "-" + r` with no dash in `a`, the first dash is at position `|a|`. */
  lemma DashPosition(a: string, r: string)
    requires '-' !in a
    ensures (a + "-" + r)[|a|] == '-'
    ensures forall j :: 0 <= j < |a| ==> (a + "-" + r)[j] != '-'
  {
    assert forall j :: 0 <= j < |a| ==> (a + "-" + r)[j] == a[j];
  }

  lemma SplitAtFirstDash(a: string, r: string, x: string, s: string)
    requires '-' !in a && '-' !in x
    requires a + "-" + r == x + "-" + s
    ensures a == x && r == s
  {
    var u := a + "-" + r;
    DashPosition(a, r);
    DashPosition(x, s);
    assert |a| == |x|;
    assert a == u[..|a|] && x == u[..|x|];
    assert r == u[|a| + 1..] && s == u[|x| + 1..];
  }

  /**
   * Flat ids identify flats as long as block and floor contain no dash: distinct
   * (block, floor, flatno) triples get distinct ids.
   */
  lemma FlatIdInjective(block: string, floor: string, flatno: string,
                        block': string, floor': string, flatno': string)
    requires '-' !in block && '-' !in floor && '-' !in block' && '-' !in floor'
    requires FlatIdOf(block, floor, flatno) == FlatIdOf(block', floor', flatno')
    ensures block == block' && floor == floor' && flatno == flatno'
  {
    assert FlatIdOf(block, floor, flatno) == block + "-" + (floor + "-" + flatno);
    assert FlatIdOf(block', floor', flatno') == block' + "-" + (floor' + "-" + flatno');
    SplitAtFirstDash(block, floor + "-" + flatno, block', floor' + "-" + flatno');
    SplitAtFirstDash(floor, flatno, floor', flatno');
  }

  /** With a dash inside a block name, two different flats share one id. */
  lemma FlatIdCollides()
    ensures FlatIdOf("A-1", "2", "3") == FlatIdOf("A", "1-2", "3")
  {
  }

  /** The item `createProjectFlats` puts for one input flat. */
  function NewFlat(projectId: string, f: FlatInput, now: Timestamp): (r: Flat)
    ensures r.key == FlatKey(projectId, FlatIdOf(f.block, f.floor, f.flatno))
    ensures r.status == Some(f.status) && r.loanApproved == Some(false)
    ensures r.layout == Some(Layout(f.block, f.floor, f.flatno, f.sqft, f.bhk))
    ensures r.latestInvoiceId.None? && r.rootInvoiceId.None?
    ensures r.latestCancellationId.None? && r.rootCancellationId.None?
  {
    Flat(FlatKey(projectId, FlatIdOf(f.block, f.floor, f.flatno)),
         Some(Layout(f.block, f.floor, f.flatno, f.sqft, f.bhk)),
         Some(f.status), Some(false), None, None, None, None, Some(now))
  }

  /** `flats.map(...)`: the put requests, one per input flat, in input order. */
  function NewFlats(projectId: string, fs: seq<FlatInput>, now: Timestamp): (r: seq<Flat>)
    ensures |r| == |fs|
    ensures forall i :: 0 <= i < |fs| ==> r[i] == NewFlat(projectId, fs[i], now)
  {
    seq(|fs|, i requires 0 <= i < |fs| => NewFlat(projectId, fs[i], now))
  }

  // ---------------------------------------------------------------------------
  // Batches of at most 25 requests.

  function Min(a: int, b: int): int
  {
    if a < b then a else b
  }

  /** `s.slice(i, i + n)`, `s.slice(i + n, i + 2n)`, ... until the end of `s`. */
  function ChunksFrom<T>(s: seq<T>, i: nat, n: nat): seq<seq<T>>
    requires n > 0
    decreases |s| - i
  {
    if i >= |s| then [] else [s[i..Min(i + n, |s|)]] + ChunksFrom(s, i + n, n)
  }

  function Concat<T>(cs: seq<seq<T>>): seq<T>
  {
    if cs == [] then [] else cs[0] + Concat(cs[1..])
  }

  /** The batches of `s`: each holds 1 to `n` requests and together they are `s`, in order. */
  function Chunks<T>(s: seq<T>, n: nat): (cs: seq<seq<T>>)
    requires n > 0
    ensures Concat(cs) == s
    ensures forall i :: 0 <= i < |cs| ==> 0 < |cs[i]| <= n
  {
    ChunksFromCover(s, 0, n);
    ChunksFrom(s, 0, n)
  }

  lemma {:induction false} ChunksFromCover<T>(s: seq<T>, i: nat, n: nat)
    requires n > 0
    ensures Concat(ChunksFrom(s, i, n)) == s[Min(i, |s|)..]
    ensures forall j :: 0 <= j < |ChunksFrom(s, i, n)| ==> 0 < |ChunksFrom(s, i, n)[j]| <= n
    decreases |s| - i
  {
    if i < |s| {
      ChunksFromCover(s, i + n, n);
      var cs := ChunksFrom(s, i, n);
      assert cs[1..] == ChunksFrom(s, i + n, n);
      assert s[i..] == s[i..Min(i + n, |s|)] + s[Min(i + n, |s|)..];
    }
  }

  /** Puts applied one after the other: a later put on the same key wins. */
  function PutAll(m: map<FlatKey, Flat>, fs: seq<Flat>): map<FlatKey, Flat>
  {
    if fs == [] then m
    else PutAll(m, fs[..|fs| - 1])[fs[|fs| - 1].key := fs[|fs| - 1]]
  }

  /** When the puts have pairwise distinct keys, each one is found under its key. */
  lemma {:induction false} PutAllStores(m: map<FlatKey, Flat>, fs: seq<Flat>, i: nat)
    requires i < |fs|
    requires forall a, b :: 0 <= a < b < |fs| ==> fs[a].key != fs[b].key
    ensures fs[i].key in PutAll(m, fs) && PutAll(m, fs)[fs[i].key] == fs[i]
  {
    if i < |fs| - 1 {
      PutAllStores(m, fs[..|fs| - 1], i);
    }
  }

  /** Keys no put touches keep their item. */
  lemma {:induction false} PutAllKeeps(m: map<FlatKey, Flat>, fs: seq<Flat>, k: FlatKey)
    requires k in m && forall i :: 0 <= i < |fs| ==> fs[i].key != k
    ensures k in PutAll(m, fs) && PutAll(m, fs)[k] == m[k]
  {
    if fs != [] {
      PutAllKeeps(m, fs[..|fs| - 1], k);
    }
  }

  /**
   * `createProjectFlats` (projectFlats.repo.js:11-43): writes the new flats in batches of
   * at most 25 and returns the batches it sent.
   */
  method CreateProjectFlats(db: Store, projectId: string, flats: seq<FlatInput>, now: Timestamp)
    returns (batches: seq<seq<Flat>>)
    modifies db`flats
    ensures batches == Chunks(NewFlats(projectId, flats, now), BatchLimit)
    ensures db.flats == PutAll(old(db.flats), NewFlats(projectId, flats, now))
  {
    var requests := NewFlats(projectId, flats, now);
    batches := [];
    var i := 0;
    while i < |requests|
      invariant i <= |requests|
      invariant batches + ChunksFrom(requests, i, BatchLimit) == ChunksFrom(requests, 0, BatchLimit)
      invariant db.flats == PutAll(old(db.flats), requests[..i])
      decreases |requests| - i
    {
      var hi := Min(i + BatchLimit, |requests|);
      assert ChunksFrom(requests, i, BatchLimit) == [requests[i..hi]] + ChunksFrom(requests, hi, BatchLimit);
      batches := batches + [requests[i..hi]];
      PutRange(db, requests, i, hi, old(db.flats));
      i := hi;
    }
    assert requests[..|requests|] == requests;
  }

  /** Sends the puts `requests[lo..hi]`, one after the other. */
  method PutRange(db: Store, requests: seq<Flat>, lo: nat, hi: nat, ghost base: map<FlatKey, Flat>)
    requires lo <= hi <= |requests|
    requires db.flats == PutAll(base, requests[..lo])
    modifies db`flats
    ensures db.flats == PutAll(base, requests[..hi])
  {
    for j := lo to hi
      invariant db.flats == PutAll(base, requests[..j])
    {
      assert requests[..j + 1][..j] == requests[..j];
      db.flats := db.flats[requests[j].key := requests[j]];
    }
  }

  // ---------------------------------------------------------------------------
  // Project statistics.

  datatype ProjectStats = ProjectStats(
    totalApartments: nat, totalBlocks: nat, soldApartments: nat, freeApartments: nat,
    bookedApartments: nat)

  /** How many of the flats have status `st`. */
  function CountStatus(fs: seq<FlatInput>, st: FlatStatus): nat
  {
    if fs == [] then 0
    else CountStatus(fs[..|fs| - 1], st) + (if fs[|fs| - 1].status == st then 1 else 0)
  }

  /** `new Set(flats.map((f) => f.block))` */
  function Blocks(fs: seq<FlatInput>): set<string>
  {
    set f | f in fs :: f.block
  }

  predicate KnownStatus(s: FlatStatus)
  {
    s == Free || s == Booked || s == Sold
  }

  /** `buildProjectStats` (projectFlats.repo.js:45-67). */
  method BuildProjectStats(flats: seq<FlatInput>) returns (stats: ProjectStats)
    ensures stats.totalApartments == |flats|
    ensures stats.totalBlocks == |Blocks(flats)|
    ensures stats.soldApartments == CountStatus(flats, Sold)
    ensures stats.bookedApartments == CountStatus(flats, Booked)
    ensures stats.freeApartments == CountStatus(flats, Free)
  {
    var blocks := Blocks(flats);
    var sold, free, booked := 0, 0, 0;
    for i := 0 to |flats|
      invariant sold == CountStatus(flats[..i], Sold)
      invariant booked == CountStatus(flats[..i], Booked)
      invariant free == CountStatus(flats[..i], Free)
    {
      assert flats[..i + 1][..i] == flats[..i];
      var s := flats[i].status;
      if s == Sold {
        sold := sold + 1;
      } else if s == Booked {
        booked := booked + 1;
      } else if s == Free {
        free := free + 1;
      }
    }
    assert flats[..|flats|] == flats;
    stats := ProjectStats(|flats|, |blocks|, sold, free, booked);
  }

  /**
   * The three counters never exceed the number of flats, and they add up to it exactly
   * when every flat's status is one of `free`, `booked` and `sold`.
   */
  lemma {:induction false} StatsAddUp(fs: seq<FlatInput>)
    ensures CountStatus(fs, Sold) + CountStatus(fs, Booked) + CountStatus(fs, Free) <= |fs|
    ensures CountStatus(fs, Sold) + CountStatus(fs, Booked) + CountStatus(fs, Free) == |fs|
            <==> forall i :: 0 <= i < |fs| ==> KnownStatus(fs[i].status)
  {
    if fs != [] {
      var front := fs[..|fs| - 1];
      StatsAddUp(front);
      assert forall i :: 0 <= i < |front| ==> front[i] == fs[i];
    }
  }

  // ---------------------------------------------------------------------------
  // Reads.

  /** `getFlatsByProjectId`: the flats stored under the project's partition key. */
  function GetFlatsByProjectId(flats: map<FlatKey, Flat>, projectId: string): (r: set<Flat>)
    ensures forall k :: k in flats && k.projectId == projectId ==> flats[k] in r
    ensures forall f :: f in r ==> exists k :: k in flats && k.projectId == projectId && flats[k] == f
  {
    set k | k in flats && k.projectId == projectId :: flats[k]
  }

  /** `getFlatById`, `getFlatInvoiceDetails`, `getFlatCancellationDetails`: a point read. */
  function GetFlatById(flats: map<FlatKey, Flat>, k: FlatKey): (r: Option<Flat>)
    ensures r.Some? <==> k in flats
    ensures r.Some? ==> r.value == flats[k]
  {
    if k in flats then Some(flats[k]) else None
  }

  /** The item an update starts from: the stored flat, or a new one holding only its key. */
  function Stored(flats: map<FlatKey, Flat>, k: FlatKey): (f: Flat)
    ensures k in flats ==> f == flats[k]
    ensures k !in flats ==> f.key == k && f.status.None? && f.loanApproved.None? && f.latestInvoiceId.None?
                            && f.rootInvoiceId.None? && f.latestCancellationId.None?
                            && f.rootCancellationId.None?
  {
    if k in flats then flats[k]
    else Flat(k, None, None, None, None, None, None, None, None)
  }

  // ---------------------------------------------------------------------------
  // The per-flat changes the update expressions make.

  /** Key, layout and creation time: what no update ever changes. */
  predicate SameUnit(f: Flat, g: Flat)
  {
    g.key == f.key && g.layout == f.layout && g.createdAt == f.createdAt
  }

  predicate SameInvoiceLinks(f: Flat, g: Flat)
  {
    g.latestInvoiceId == f.latestInvoiceId && g.rootInvoiceId == f.rootInvoiceId
  }

  predicate SameCancellationLinks(f: Flat, g: Flat)
  {
    g.latestCancellationId == f.latestCancellationId && g.rootCancellationId == f.rootCancellationId
  }

  /** `SET #st = :status` */
  function WithStatus(f: Flat, s: FlatStatus): (g: Flat)
    ensures g.status == Some(s) && g.loanApproved == f.loanApproved
    ensures SameUnit(f, g) && SameInvoiceLinks(f, g) && SameCancellationLinks(f, g)
  {
    f.(status := Some(s))
  }

  /** `SET latestInvoiceId = :latest, rootInvoiceId = :root, #st = :status` */
  function WithInvoice(f: Flat, latest: string, root: string, s: FlatStatus): (g: Flat)
    ensures g.latestInvoiceId == Some(latest) && g.rootInvoiceId == Some(root) && g.status == Some(s)
    ensures SameUnit(f, g) && SameCancellationLinks(f, g) && g.loanApproved == f.loanApproved
  {
    f.(latestInvoiceId := Some(latest), rootInvoiceId := Some(root), status := Some(s))
  }

  /** `SET latestCancellationId = :latest, rootCancellationId = :root` */
  function WithCancellation(f: Flat, latest: string, root: string): (g: Flat)
    ensures g.latestCancellationId == Some(latest) && g.rootCancellationId == Some(root)
    ensures SameUnit(f, g) && SameInvoiceLinks(f, g)
    ensures g.status == f.status && g.loanApproved == f.loanApproved
  {
    f.(latestCancellationId := Some(latest), rootCancellationId := Some(root))
  }

  /** `SET #st = "free" REMOVE latestInvoiceId, rootInvoiceId` */
  function FreedOfInvoice(f: Flat): (g: Flat)
    ensures g.status == Some(Free) && g.latestInvoiceId.None? && g.rootInvoiceId.None?
    ensures SameUnit(f, g) && SameCancellationLinks(f, g) && g.loanApproved == f.loanApproved
  {
    f.(status := Some(Free), latestInvoiceId := None, rootInvoiceId := None)
  }

  /** `SET #st = "free" REMOVE latestCancellationId, rootCancellationId` */
  function FreedOfCancellation(f: Flat): (g: Flat)
    ensures g.status == Some(Free) && g.latestCancellationId.None? && g.rootCancellationId.None?
    ensures SameUnit(f, g) && SameInvoiceLinks(f, g) && g.loanApproved == f.loanApproved
  {
    f.(status := Some(Free), latestCancellationId := None, rootCancellationId := None)
  }

  /** `SET latestInvoiceId = :new, #st = :status` */
  function WithLatestInvoice(f: Flat, newId: string, s: FlatStatus): (g: Flat)
    ensures g.latestInvoiceId == Some(newId) && g.status == Some(s)
    ensures g.rootInvoiceId == f.rootInvoiceId && g.loanApproved == f.loanApproved
    ensures SameUnit(f, g) && SameCancellationLinks(f, g)
  {
    f.(latestInvoiceId := Some(newId), status := Some(s))
  }

  /** `SET latestCancellationId = :newId` */
  function WithLatestCancellation(f: Flat, newId: string): (g: Flat)
    ensures g.latestCancellationId == Some(newId) && g.rootCancellationId == f.rootCancellationId
    ensures g.status == f.status && g.loanApproved == f.loanApproved
    ensures SameUnit(f, g) && SameInvoiceLinks(f, g)
  {
    f.(latestCancellationId := Some(newId))
  }

  /** `attribute_not_exists(loan_approved) OR loan_approved = :false` */
  predicate LoanApprovable(f: Flat)
  {
    f.loanApproved != Some(true)
  }

  /** `SET loan_approved = :true`; the status is left as it is. */
  function WithLoanApproved(f: Flat): (g: Flat)
    ensures g.loanApproved == Some(true) && !LoanApprovable(g)
    ensures g.status == f.status
    ensures SameUnit(f, g) && SameInvoiceLinks(f, g) && SameCancellationLinks(f, g)
  {
    f.(loanApproved := Some(true))
  }

  // ---------------------------------------------------------------------------
  // The invariant the link updates keep.

  /**
   * A flat's links are consistent: latest and root ids of one kind are present together,
   * and a flat with a latest invoice is `booked` or `sold`.
   */
  predicate LinksConsistent(f: Flat)
  {
    && (f.latestInvoiceId.Some? <==> f.rootInvoiceId.Some?)
    && (f.latestCancellationId.Some? <==> f.rootCancellationId.Some?)
    && (f.latestInvoiceId.Some? ==> f.status == Some(Booked) || f.status == Some(Sold))
  }

  predicate TableConsistent(flats: map<FlatKey, Flat>)
  {
    forall k :: k in flats ==> flats[k].key == k && LinksConsistent(flats[k])
  }

  /**
   * Detaching a cancellation frees the flat but keeps its invoice links, so a flat that
   * still has a latest invoice can end up `free`.
   */
  lemma DetachCancellationFreesInvoicedFlat()
    ensures var f := Flat(FlatKey("p", "A-1-101"), None, Some(Booked), Some(false),
                          Some("inv-2"), Some("inv-1"), Some("can-1"), Some("can-1"), None);
            LinksConsistent(f) && !LinksConsistent(FreedOfCancellation(f))
  {
  }

  lemma StoredConsistent(flats: map<FlatKey, Flat>, k: FlatKey)
    requires TableConsistent(flats)
    ensures LinksConsistent(Stored(flats, k))
  {
  }

  // ---------------------------------------------------------------------------
  // The secondary indexes on `latestInvoiceId` and `latestCancellationId`.

  /**
   * `hit` is an answer the `latestInvoiceId-index` (queried with `Limit: 1`) can give for
   * `id` when it is up to date: some flat whose latest invoice is `id`, or none if no flat has it.
   */
  predicate InvoiceIndexAnswers(flats: map<FlatKey, Flat>, id: string, hit: Option<FlatKey>)
  {
    match hit
    case None => forall k :: k in flats ==> flats[k].latestInvoiceId != Some(id)
    case Some(k) => k in flats && flats[k].latestInvoiceId == Some(id)
  }

  predicate CancellationIndexAnswers(flats: map<FlatKey, Flat>, id: string, hit: Option<FlatKey>)
  {
    match hit
    case None => forall k :: k in flats ==> flats[k].latestCancellationId != Some(id)
    case Some(k) => k in flats && flats[k].latestCancellationId == Some(id)
  }

  /** The result of `getLoanApprovalStatus`: an object `{ loan_approved }`, not a boolean. */
  datatype LoanCheck = LoanCheck(loanApproved: bool)

  /**
   * `getLoanApprovalStatus` (projectFlats.repo.js:479-500): the loan flag of the flat the
   * index names, false when the flag (or the flat) is missing.
   */
  function GetLoanApprovalStatus(flats: map<FlatKey, Flat>, hit: Option<FlatKey>)
    : (r: Result<LoanCheck, Failure>)
    ensures hit.None? <==> r == Err(NoFlatForInvoice)
    ensures r.Ok? ==> (r.value.loanApproved <==> hit.value in flats && flats[hit.value].loanApproved == Some(true))
  {
    match hit
    case None => Err(NoFlatForInvoice)
    case Some(k) => Ok(LoanCheck(k in flats && flats[k].loanApproved.GetOr(false)))
  }

  // ---------------------------------------------------------------------------
  // Writes.

  /** `updateFlatStatus` (projectFlats.repo.js:96-116). */
  method UpdateFlatStatus(db: Store, k: FlatKey, s: FlatStatus)
    modifies db`flats
    ensures db.flats == old(db.flats)[k := WithStatus(Stored(old(db.flats), k), s)]
    ensures TableConsistent(old(db.flats)) && (s == Booked || s == Sold) ==> TableConsistent(db.flats)
  {
    db.flats := db.flats[k := WithStatus(Stored(db.flats, k), s)];
  }

  /** `attachInvoiceAndUpdateStatus` (projectFlats.repo.js:270-296). */
  method AttachInvoiceAndUpdateStatus(db: Store, k: FlatKey, latest: string, root: string, s: FlatStatus)
    modifies db`flats
    ensures db.flats == old(db.flats)[k := WithInvoice(Stored(old(db.flats), k), latest, root, s)]
    ensures TableConsistent(old(db.flats)) && (s == Booked || s == Sold) ==> TableConsistent(db.flats)
  {
    db.flats := db.flats[k := WithInvoice(Stored(db.flats, k), latest, root, s)];
  }

  /** `attachCancellation` (projectFlats.repo.js:297-318). */
  method AttachCancellation(db: Store, k: FlatKey, latest: string, root: string)
    modifies db`flats
    ensures db.flats == old(db.flats)[k := WithCancellation(Stored(old(db.flats), k), latest, root)]
    ensures TableConsistent(old(db.flats)) ==> TableConsistent(db.flats)
  {
    db.flats := db.flats[k := WithCancellation(Stored(db.flats, k), latest, root)];
  }

  /**
   * `updateLatestInvoiceByCurrentInvoiceId` (projectFlats.repo.js:200-235): through the
   * index, then a write guarded by `latestInvoiceId = :current`.
   */
  method UpdateLatestInvoiceByCurrentInvoiceId(
    db: Store, hit: Option<FlatKey>, current: string, newId: string, s: FlatStatus)
    returns (r: Result<Flat, Failure>)
    modifies db`flats
    ensures hit.None? ==> r == Err(NoFlatForInvoice) && db.flats == old(db.flats)
    ensures hit.Some? && !(hit.value in old(db.flats) && old(db.flats)[hit.value].latestInvoiceId == Some(current))
            ==> r == Err(ConditionalCheckFailed) && db.flats == old(db.flats)
    ensures hit.Some? && hit.value in old(db.flats) && old(db.flats)[hit.value].latestInvoiceId == Some(current)
            ==> r == Ok(WithLatestInvoice(old(db.flats)[hit.value], newId, s))
                && db.flats == old(db.flats)[hit.value := r.value]
    ensures InvoiceIndexAnswers(old(db.flats), current, hit) ==> r != Err(ConditionalCheckFailed)
    ensures TableConsistent(old(db.flats)) && (s == Booked || s == Sold) ==> TableConsistent(db.flats)
  {
    if hit.None? {
      return Err(NoFlatForInvoice);
    }
    var k := hit.value;
    if !(k in db.flats && db.flats[k].latestInvoiceId == Some(current)) {
      return Err(ConditionalCheckFailed);
    }
    var g := WithLatestInvoice(db.flats[k], newId, s);
    db.flats := db.flats[k := g];
    r := Ok(g);
  }

  /** `detachInvoiceByCurrentInvoiceId` (projectFlats.repo.js:320-351). */
  method DetachInvoiceByCurrentInvoiceId(db: Store, hit: Option<FlatKey>, current: string)
    returns (r: Result<Flat, Failure>)
    modifies db`flats
    ensures hit.None? ==> r == Err(NoFlatForInvoice) && db.flats == old(db.flats)
    ensures hit.Some? && !(hit.value in old(db.flats) && old(db.flats)[hit.value].latestInvoiceId == Some(current))
            ==> r == Err(ConditionalCheckFailed) && db.flats == old(db.flats)
    ensures hit.Some? && hit.value in old(db.flats) && old(db.flats)[hit.value].latestInvoiceId == Some(current)
            ==> r == Ok(FreedOfInvoice(old(db.flats)[hit.value]))
                && db.flats == old(db.flats)[hit.value := r.value]
    ensures InvoiceIndexAnswers(old(db.flats), current, hit) ==> r != Err(ConditionalCheckFailed)
    ensures TableConsistent(old(db.flats)) ==> TableConsistent(db.flats)
  {
    if hit.None? {
      return Err(NoFlatForInvoice);
    }
    var k := hit.value;
    if !(k in db.flats && db.flats[k].latestInvoiceId == Some(current)) {
      return Err(ConditionalCheckFailed);
    }
    var g := FreedOfInvoice(db.flats[k]);
    db.flats := db.flats[k := g];
    r := Ok(g);
  }

  /** `detachCancellationByCurrentCancellationId` (projectFlats.repo.js:353-388). */
  method DetachCancellationByCurrentCancellationId(db: Store, hit: Option<FlatKey>, current: string)
    returns (r: Result<Flat, Failure>)
    modifies db`flats
    ensures hit.None? ==> r == Err(NoFlatForCancellation) && db.flats == old(db.flats)
    ensures hit.Some? && !(hit.value in old(db.flats) && old(db.flats)[hit.value].latestCancellationId == Some(current))
            ==> r == Err(ConditionalCheckFailed) && db.flats == old(db.flats)
    ensures hit.Some? && hit.value in old(db.flats) && old(db.flats)[hit.value].latestCancellationId == Some(current)
            ==> r == Ok(FreedOfCancellation(old(db.flats)[hit.value]))
                && db.flats == old(db.flats)[hit.value := r.value]
    ensures CancellationIndexAnswers(old(db.flats), current, hit) ==> r != Err(ConditionalCheckFailed)
    ensures TableConsistent(old(db.flats)) && (r.Ok? ==> r.value.latestInvoiceId.None?)
            ==> TableConsistent(db.flats)
  {
    if hit.None? {
      return Err(NoFlatForCancellation);
    }
    var k := hit.value;
    if !(k in db.flats && db.flats[k].latestCancellationId == Some(current)) {
      return Err(ConditionalCheckFailed);
    }
    var g := FreedOfCancellation(db.flats[k]);
    db.flats := db.flats[k := g];
    r := Ok(g);
  }

  /**
   * `updateLatestCancellationByCurrentCancellationId` (projectFlats.repo.js:390-417): the
   * write has no condition, so it lands on whatever flat the index named.
   */
  method UpdateLatestCancellationByCurrentCancellationId(
    db: Store, hit: Option<FlatKey>, current: string, newId: string)
    returns (r: Result<bool, Failure>)
    modifies db`flats
    ensures hit.None? ==> r == Err(NoFlatForCancellation) && db.flats == old(db.flats)
    ensures hit.Some? ==> r == Ok(true)
    ensures hit.Some? ==> db.flats == old(db.flats)[hit.value := WithLatestCancellation(Stored(old(db.flats), hit.value), newId)]
    ensures TableConsistent(old(db.flats)) && CancellationIndexAnswers(old(db.flats), current, hit)
            ==> TableConsistent(db.flats)
  {
    if hit.None? {
      return Err(NoFlatForCancellation);
    }
    var k := hit.value;
    db.flats := db.flats[k := WithLatestCancellation(Stored(db.flats, k), newId)];
    r := Ok(true);
  }

  /** `resetFlatToFree` (projectFlats.repo.js:419-443). */
  method ResetFlatToFree(db: Store, k: FlatKey) returns (r: Result<Flat, Failure>)
    modifies db`flats
    ensures k.projectId == "" || k.flatId == "" ==> r == Err(KeysRequired) && db.flats == old(db.flats)
    ensures k.projectId != "" && k.flatId != "" ==>
              r == Ok(FreedOfInvoice(Stored(old(db.flats), k))) && db.flats == old(db.flats)[k := r.value]
    ensures TableConsistent(old(db.flats)) ==> TableConsistent(db.flats)
  {
    if k.projectId == "" || k.flatId == "" {
      return Err(KeysRequired);
    }
    var g := FreedOfInvoice(Stored(db.flats, k));
    db.flats := db.flats[k := g];
    r := Ok(g);
  }

  /**
   * `approveLoanForFlat` (projectFlats.repo.js:445-477): sets the loan flag once; a flat
   * whose flag is already true is refused. The status is not touched.
   */
  method ApproveLoanForFlat(db: Store, k: FlatKey) returns (r: Result<Flat, Failure>)
    modifies db`flats
    ensures k.projectId == "" || k.flatId == "" ==> r == Err(KeysRequired) && db.flats == old(db.flats)
    ensures k.projectId != "" && k.flatId != "" && !LoanApprovable(Stored(old(db.flats), k))
            ==> r == Err(LoanAlreadyApproved) && db.flats == old(db.flats)
    ensures k.projectId != "" && k.flatId != "" && LoanApprovable(Stored(old(db.flats), k))
            ==> r == Ok(WithLoanApproved(Stored(old(db.flats), k))) && db.flats == old(db.flats)[k := r.value]
    ensures r.Ok? ==> r.value.status == Stored(old(db.flats), k).status
    ensures TableConsistent(old(db.flats)) ==> TableConsistent(db.flats)
  {
    if k.projectId == "" || k.flatId == "" {
      return Err(KeysRequired);
    }
    var f := Stored(db.flats, k);
    if TableConsistent(db.flats) {
      StoredConsistent(db.flats, k);
    }
    if !LoanApprovable(f) {
      return Err(LoanAlreadyApproved);
    }
    var g := WithLoanApproved(f);
    assert LinksConsistent(f) ==> LinksConsistent(g);
    db.flats := db.flats[k := g];
    r := Ok(g);
  }

  /** A second approval of the same flat is always refused. */
  lemma SecondApprovalRefused(flats: map<FlatKey, Flat>, k: FlatKey)
    ensures !LoanApprovable(Stored(flats[k := WithLoanApproved(Stored(flats, k))], k))
  {
  }

  /** Lists a set of keys, in some order, each once. */
  method ListKeys(keys: set<FlatKey>) returns (s: seq<FlatKey>)
    ensures (set k | k in s) == keys
    ensures forall i, j :: 0 <= i < j < |s| ==> s[i] != s[j]
  {
    s := [];
    var rest := keys;
    while rest != {}
      invariant rest <= keys
      invariant (set k | k in s) == keys - rest
      invariant forall i, j :: 0 <= i < j < |s| ==> s[i] != s[j]
      decreases |rest|
    {
      var k :| k in rest;
      assert (set x | x in s + [k]) == (set x | x in s) + {k};
      s := s + [k];
      rest := rest - {k};
    }
  }

  /**
   * `deleteFlatsByProjectId` (projectFlats.repo.js:118-144): deletes every flat of the
   * project, in batches of at most 25 keys; returns the batches it sent.
   */
  method DeleteFlatsByProjectId(db: Store, projectId: string) returns (batches: seq<seq<FlatKey>>)
    modifies db`flats
    ensures db.flats == map k | k in old(db.flats) && k.projectId != projectId :: old(db.flats)[k]
    ensures forall i :: 0 <= i < |batches| ==> 0 < |batches[i]| <= BatchLimit
    ensures (set k | k in Concat(batches)) == set k | k in old(db.flats) && k.projectId == projectId
  {
    var keys := set k | k in db.flats && k.projectId == projectId;
    var requests := ListKeys(keys);
    ChunksFromCover(requests, 0, BatchLimit);
    assert requests[0..] == requests;
    if |requests| == 0 {
      assert db.flats == old(db.flats) - KeysOf(requests);
      return [];
    }
    batches := DeleteInBatches(db, requests);
  }

  /** The batch loop of `deleteFlatsByProjectId`: deletes `requests` in slices of `BatchLimit`. */
  method DeleteInBatches(db: Store, requests: seq<FlatKey>) returns (batches: seq<seq<FlatKey>>)
    modifies db`flats
    ensures batches == ChunksFrom(requests, 0, BatchLimit)
    ensures db.flats == old(db.flats) - KeysOf(requests)
  {
    batches := [];
    var i := 0;
    while i < |requests|
      invariant i <= |requests| + BatchLimit && i % BatchLimit == 0
      invariant batches + ChunksFrom(requests, i, BatchLimit) == ChunksFrom(requests, 0, BatchLimit)
      invariant db.flats == old(db.flats) - KeysOf(requests[..Min(i, |requests|)])
      decreases |requests| - i
    {
      var hi := Min(i + BatchLimit, |requests|);
      assert ChunksFrom(requests, i, BatchLimit) == [requests[i..hi]] + ChunksFrom(requests, i + BatchLimit, BatchLimit);
      batches := batches + [requests[i..hi]];
      DeleteRange(db, requests, i, hi, old(db.flats));
      i := i + BatchLimit;
    }
    assert ChunksFrom(requests, i, BatchLimit) == [];
    assert requests[..|requests|] == requests;
  }

  /** Sends the deletes `requests[lo..hi]`, one after the other. */
  method DeleteRange(db: Store, requests: seq<FlatKey>, lo: nat, hi: nat, ghost base: map<FlatKey, Flat>)
    requires lo <= hi <= |requests|
    requires db.flats == base - KeysOf(requests[..lo])
    modifies db`flats
    ensures db.flats == base - KeysOf(requests[..hi])
  {
    for j := lo to hi
      invariant db.flats == base - KeysOf(requests[..j])
    {
      assert KeysOf(requests[..j + 1]) == KeysOf(requests[..j]) + {requests[j]} by {
        assert requests[..j + 1] == requests[..j] + [requests[j]];
      }
      db.flats := db.flats - {requests[j]};
    }
  }

  function KeysOf(s: seq<FlatKey>): set<FlatKey>
  {
    set k | k in s
  }
}
