/**
 * Resolving a cancellation voucher's versions (src/repository/cancellation.repo.js).
 *
 * Unlike invoices, cancellations are not resolved through back-links: all vouchers that
 * cancel the same invoice (`inv_id`) form one group, its root is a member of least
 * `version` and its latest a member of greatest `version`.
 */
module CancellationRepo {
  import opened Wrappers
  import opened Records
  import opened Tables

  function CancellationKey(c: Cancellation): string
  {
    c.id
  }

  /** `getCancellationById`: a point read by `_id`. */
  function GetCancellationById(cs: seq<Cancellation>, id: string): (r: Option<Cancellation>)
    ensures r.Some? ==> r.value in cs && r.value.id == id
    ensures r.None? <==> forall j :: 0 <= j < |cs| ==> cs[j].id != id
  {
    var m := IndexBy(cs, CancellationKey);
    assert forall j :: 0 <= j < |cs| ==> CancellationKey(cs[j]) == cs[j].id;
    if id in m then Some(m[id]) else None
  }

  /** `getCancellationsByInvoiceId`: the scan filtered on `inv_id = :invId`, in scan order. */
  function CancellationsByInvoiceId(cs: seq<Cancellation>, invId: string): (r: seq<Cancellation>)
    ensures forall c :: c in r <==> c in cs && c.invId == invId
    ensures |r| <= |cs|
  {
    if cs == [] then []
    else
      var rest := CancellationsByInvoiceId(cs[1..], invId);
      assert forall c :: c in cs <==> c == cs[0] || c in cs[1..];
      if cs[0].invId == invId then [cs[0]] + rest else rest
  }

  /** Filtering a concatenation filters each part and keeps the parts in order. */
  lemma {:induction false} FilterAppend(a: seq<Cancellation>, b: seq<Cancellation>, invId: string)
    ensures CancellationsByInvoiceId(a + b, invId)
              == CancellationsByInvoiceId(a, invId) + CancellationsByInvoiceId(b, invId)
  {
    if a == [] {
      assert a + b == b;
    } else {
      assert (a + b)[0] == a[0] && (a + b)[1..] == a[1..] + b;
      FilterAppend(a[1..], b, invId);
    }
  }

  /**
   * A voucher of the group at scan position `j` is returned right after the group's
   * vouchers scanned before it.
   */
  lemma FilterAt(cs: seq<Cancellation>, invId: string, j: nat)
    requires j < |cs| && cs[j].invId == invId
    ensures var r, before := CancellationsByInvoiceId(cs, invId), CancellationsByInvoiceId(cs[..j], invId);
            |before| < |r| && r[|before|] == cs[j] && r[..|before|] == before
  {
    FilterAppend(cs[..j], cs[j..], invId);
    assert cs[..j] + cs[j..] == cs;
    assert cs[j..][0] == cs[j];
  }

  /** The first scan position holding `x`. */
  function FirstIndex(cs: seq<Cancellation>, x: Cancellation): (j: nat)
    requires x in cs
    ensures j < |cs| && cs[j] == x
    ensures forall i :: 0 <= i < j ==> cs[i] != x
  {
    if cs[0] == x then 0 else 1 + FirstIndex(cs[1..], x)
  }

  /**
   * The voucher at scan position `j` has a least version of its group, and every voucher
   * of the group scanned before it has a greater one: the strict `<` reduce picks it.
   */
  ghost predicate EarliestOfLeast(cs: seq<Cancellation>, j: nat)
    requires j < |cs|
  {
    && (forall i :: 0 <= i < |cs| && cs[i].invId == cs[j].invId ==> cs[j].version <= cs[i].version)
    && (forall i :: 0 <= i < j && cs[i].invId == cs[j].invId ==> cs[i].version > cs[j].version)
  }

  /** The same for a greatest version and the strict `>` reduce. */
  ghost predicate EarliestOfGreatest(cs: seq<Cancellation>, j: nat)
    requires j < |cs|
  {
    && (forall i :: 0 <= i < |cs| && cs[i].invId == cs[j].invId ==> cs[i].version <= cs[j].version)
    && (forall i :: 0 <= i < j && cs[i].invId == cs[j].invId ==> cs[i].version < cs[j].version)
  }

  lemma RootIsEarliest(cs: seq<Cancellation>, invId: string)
    requires |CancellationsByInvoiceId(cs, invId)| > 0
    ensures var all := CancellationsByInvoiceId(cs, invId);
            exists j :: 0 <= j < |cs| && cs[j] == all[MinVersionAt(all)] && EarliestOfLeast(cs, j)
  {
    var all := CancellationsByInvoiceId(cs, invId);
    var k := MinVersionAt(all);
    var j := FirstIndex(cs, all[k]);
    ScannedBeforeComeFirst(cs, invId, k, j);
    forall i | 0 <= i < |cs| && cs[i].invId == invId
      ensures cs[j].version <= cs[i].version
    {
      assert cs[i] in all;
    }
    assert EarliestOfLeast(cs, j);
  }

  lemma LatestIsEarliest(cs: seq<Cancellation>, invId: string)
    requires |CancellationsByInvoiceId(cs, invId)| > 0
    ensures var all := CancellationsByInvoiceId(cs, invId);
            exists j :: 0 <= j < |cs| && cs[j] == all[MaxVersionAt(all)] && EarliestOfGreatest(cs, j)
  {
    var all := CancellationsByInvoiceId(cs, invId);
    var k := MaxVersionAt(all);
    var j := FirstIndex(cs, all[k]);
    ScannedBeforeComeFirst(cs, invId, k, j);
    forall i | 0 <= i < |cs| && cs[i].invId == invId
      ensures cs[i].version <= cs[j].version
    {
      assert cs[i] in all;
    }
    assert EarliestOfGreatest(cs, j);
  }

  /**
   * When `j` is the first scan position of the filter's `k`-th voucher, every voucher of
   * the group scanned before `j` is among the first `k` the filter returns.
   */
  lemma ScannedBeforeComeFirst(cs: seq<Cancellation>, invId: string, k: nat, j: nat)
    requires k < |CancellationsByInvoiceId(cs, invId)|
    requires j < |cs| && cs[j] == CancellationsByInvoiceId(cs, invId)[k]
    requires forall i :: 0 <= i < j ==> cs[i] != cs[j]
    ensures forall i :: 0 <= i < j && cs[i].invId == invId ==>
              exists m :: 0 <= m < k && CancellationsByInvoiceId(cs, invId)[m] == cs[i]
  {
    var r := CancellationsByInvoiceId(cs, invId);
    assert cs[j] in r;
    var before := CancellationsByInvoiceId(cs[..j], invId);
    FilterAt(cs, invId, j);
    assert |before| <= k;
    forall i | 0 <= i < j && cs[i].invId == invId
      ensures exists m :: 0 <= m < k && r[m] == cs[i]
    {
      assert cs[..j][i] == cs[i];
      assert cs[i] in before;
      var m :| 0 <= m < |before| && before[m] == cs[i];
      assert r[m] == cs[i];
    }
  }

  /**
   * `all.reduce((root, c) => c.version < root.version ? c : root)`: the position of a
   * least version; the comparison is strict, so among equals the earliest is kept.
   */
  function MinVersionAt(g: seq<Cancellation>): (k: nat)
    requires |g| > 0
    ensures k < |g|
    ensures forall j :: 0 <= j < |g| ==> g[k].version <= g[j].version
    ensures forall j :: 0 <= j < k ==> g[j].version > g[k].version
  {
    if |g| == 1 then 0
    else
      var k := MinVersionAt(g[..|g| - 1]);
      assert forall j :: 0 <= j < |g| - 1 ==> g[..|g| - 1][j] == g[j];
      if g[|g| - 1].version < g[k].version then |g| - 1 else k
  }

  /** `all.reduce((latest, c) => c.version > latest.version ? c : latest)`. */
  function MaxVersionAt(g: seq<Cancellation>): (k: nat)
    requires |g| > 0
    ensures k < |g|
    ensures forall j :: 0 <= j < |g| ==> g[j].version <= g[k].version
    ensures forall j :: 0 <= j < k ==> g[j].version < g[k].version
  {
    if |g| == 1 then 0
    else
      var k := MaxVersionAt(g[..|g| - 1]);
      assert forall j :: 0 <= j < |g| - 1 ==> g[..|g| - 1][j] == g[j];
      if g[|g| - 1].version > g[k].version then |g| - 1 else k
  }

  /** `getRootCancellationByAnyId`: a least-version member of the start's group. */
  function GetRootCancellationByAnyId(cs: seq<Cancellation>, id: string): (r: Option<Cancellation>)
    ensures r.None? <==> forall j :: 0 <= j < |cs| ==> cs[j].id != id
    ensures r.Some? ==> r.value in cs && r.value.invId == GetCancellationById(cs, id).value.invId
    ensures r.Some? ==> forall c :: c in cs && c.invId == r.value.invId ==> r.value.version <= c.version
    ensures r.Some? ==> exists j :: 0 <= j < |cs| && cs[j] == r.value && EarliestOfLeast(cs, j)
  {
    match GetCancellationById(cs, id)
    case None => None
    case Some(current) =>
      var all := CancellationsByInvoiceId(cs, current.invId);
      if |all| == 0 then None
      else
        RootIsEarliest(cs, current.invId);
        Some(all[MinVersionAt(all)])
  }

  /** `getLatestCancellationByAnyIdFromAnyId`: a greatest-version member of the start's group. */
  function GetLatestCancellationByAnyId(cs: seq<Cancellation>, id: string): (r: Option<Cancellation>)
    ensures r.None? <==> forall j :: 0 <= j < |cs| ==> cs[j].id != id
    ensures r.Some? ==> r.value in cs && r.value.invId == GetCancellationById(cs, id).value.invId
    ensures r.Some? ==> forall c :: c in cs && c.invId == r.value.invId ==> c.version <= r.value.version
    ensures r.Some? ==> exists j :: 0 <= j < |cs| && cs[j] == r.value && EarliestOfGreatest(cs, j)
  {
    match GetCancellationById(cs, id)
    case None => None
    case Some(current) =>
      var all := CancellationsByInvoiceId(cs, current.invId);
      if |all| == 0 then None
      else
        LatestIsEarliest(cs, current.invId);
        Some(all[MaxVersionAt(all)])
  }

  /** The start lies between its group's root and latest, and all three share `inv_id`. */
  lemma RootStartLatestOrdered(cs: seq<Cancellation>, id: string)
    requires exists j :: 0 <= j < |cs| && cs[j].id == id
    ensures var start := GetCancellationById(cs, id).value;
            var root := GetRootCancellationByAnyId(cs, id).value;
            var latest := GetLatestCancellationByAnyId(cs, id).value;
            && root.invId == start.invId == latest.invId
            && root.version <= start.version <= latest.version
  {
  }

  // ---------------------------------------------------------------------------
  // Resolution reads only `_id`, `inv_id` and `version`.

  /** Two scans that agree on every row's `_id`, `inv_id` and `version`, position by position. */
  predicate SameShape(cs: seq<Cancellation>, ds: seq<Cancellation>)
  {
    && |cs| == |ds|
    && forall i :: 0 <= i < |cs| ==>
         cs[i].id == ds[i].id && cs[i].invId == ds[i].invId && cs[i].version == ds[i].version
  }

  lemma {:induction false} IndexSameShape(cs: seq<Cancellation>, ds: seq<Cancellation>, id: string)
    requires SameShape(cs, ds)
    ensures var m, n := IndexBy(cs, CancellationKey), IndexBy(ds, CancellationKey);
            (id in m <==> id in n)
            && (id in m ==> m[id].invId == n[id].invId && m[id].version == n[id].version)
  {
    if cs != [] {
      var k := |cs| - 1;
      assert SameShape(cs[..k], ds[..k]);
      IndexSameShape(cs[..k], ds[..k], id);
    }
  }

  lemma {:induction false} FilterSameShape(cs: seq<Cancellation>, ds: seq<Cancellation>, invId: string)
    requires SameShape(cs, ds)
    ensures SameShape(CancellationsByInvoiceId(cs, invId), CancellationsByInvoiceId(ds, invId))
  {
    if cs != [] {
      var r1, r2 := CancellationsByInvoiceId(cs[1..], invId), CancellationsByInvoiceId(ds[1..], invId);
      assert SameShape(cs[1..], ds[1..]);
      FilterSameShape(cs[1..], ds[1..], invId);
      if cs[0].invId == invId {
        SameShapeCons(cs[0], ds[0], r1, r2);
      }
    }
  }

  lemma SameShapeCons(c: Cancellation, d: Cancellation, g: seq<Cancellation>, h: seq<Cancellation>)
    requires c.id == d.id && c.invId == d.invId && c.version == d.version && SameShape(g, h)
    ensures SameShape([c] + g, [d] + h)
  {
    forall i | 0 < i < |g| + 1
      ensures ([c] + g)[i] == g[i - 1] && ([d] + h)[i] == h[i - 1]
    {
    }
  }

  lemma {:induction false} ReduceSameShape(g: seq<Cancellation>, h: seq<Cancellation>)
    requires SameShape(g, h) && |g| > 0
    ensures MinVersionAt(g) == MinVersionAt(h) && MaxVersionAt(g) == MaxVersionAt(h)
  {
    if |g| > 1 {
      assert SameShape(g[..|g| - 1], h[..|h| - 1]);
      ReduceSameShape(g[..|g| - 1], h[..|h| - 1]);
    }
  }

  /**
   * Rewriting the back-links (or any attribute besides `_id`, `inv_id` and `version`)
   * never changes which versions are resolved as root and latest.
   */
  lemma ResolutionIgnoresBackLinks(cs: seq<Cancellation>, ds: seq<Cancellation>, id: string)
    requires SameShape(cs, ds)
    ensures GetRootCancellationByAnyId(cs, id).Some? == GetRootCancellationByAnyId(ds, id).Some?
    ensures GetRootCancellationByAnyId(cs, id).Some? ==>
              GetRootCancellationByAnyId(cs, id).value.id == GetRootCancellationByAnyId(ds, id).value.id
    ensures GetLatestCancellationByAnyId(cs, id).Some? ==>
              GetLatestCancellationByAnyId(cs, id).value.id == GetLatestCancellationByAnyId(ds, id).value.id
  {
    IndexSameShape(cs, ds, id);
    var m := IndexBy(cs, CancellationKey);
    if id in m {
      var invId := m[id].invId;
      FilterSameShape(cs, ds, invId);
      var g, h := CancellationsByInvoiceId(cs, invId), CancellationsByInvoiceId(ds, invId);
      if |g| > 0 {
        ReduceSameShape(g, h);
      }
    }
  }
}
