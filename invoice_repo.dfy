/**
 * Resolving an invoice's version chain (src/repository/invoice.repo.js).
 *
 * Every edit of an invoice is stored as a new version whose `previousInvoiceId` names the
 * version it replaces. The root of a chain has no back-link; the latest version is the one
 * no other version points back to. Both resolvers scan the whole table and index it by `_id`.
 */
module InvoiceRepo {
  import opened Wrappers
  import opened Records
  import opened Tables

  function InvoiceKey(inv: Invoice): string
  {
    inv.id
  }

  /** The `map` both resolvers build: `_id` to invoice, later rows winning. */
  function Index(invs: seq<Invoice>): (m: map<string, Invoice>)
    ensures forall id :: id in m ==> m[id] in invs && m[id].id == id
  {
    IndexBy(invs, InvoiceKey)
  }

  /** The primary key `_id` is unique in the table. */
  predicate UniqueIds(invs: seq<Invoice>)
  {
    UniqueKeys(invs, InvoiceKey)
  }

  /** `getInvoiceById`: a point read by `_id`; None when no invoice has that id. */
  function GetInvoiceById(invs: seq<Invoice>, id: string): (r: Option<Invoice>)
    ensures r.Some? ==> r.value in invs && r.value.id == id
    ensures r.None? <==> forall j :: 0 <= j < |invs| ==> invs[j].id != id
  {
    var m := Index(invs);
    assert forall j :: 0 <= j < |invs| ==> InvoiceKey(invs[j]) == invs[j].id;
    if id in m then Some(m[id]) else None
  }

  /**
   * `invoices.find(i => i.previousInvoiceId === id)`: the position of the FIRST invoice,
   * in scan order, whose back-link names `id`.
   */
  function FindFollower(invs: seq<Invoice>, id: string): (r: Option<nat>)
    ensures r.Some? ==> r.value < |invs| && invs[r.value].previousInvoiceId == Some(id)
    ensures r.Some? ==> forall i :: 0 <= i < r.value ==> invs[i].previousInvoiceId != Some(id)
    ensures r.None? ==> forall i :: 0 <= i < |invs| ==> invs[i].previousInvoiceId != Some(id)
  {
    if invs == [] then None
    else if invs[0].previousInvoiceId == Some(id) then Some(0)
    else
      match FindFollower(invs[1..], id)
      case None => None
      case Some(k) => Some(k + 1)
  }

  /** No invoice in the table is a follower of `inv`. */
  predicate HasNoFollower(invs: seq<Invoice>, inv: Invoice)
  {
    forall i :: 0 <= i < |invs| ==> invs[i].previousInvoiceId != Some(inv.id)
  }

  /**
   * The forward walk from `cur`: step to the first follower until there is none. None
   * when the walk has not ended after `fuel` steps (a cycle makes it run forever).
   */
  function LatestFrom(invs: seq<Invoice>, cur: Invoice, fuel: nat): (r: Option<Invoice>)
    ensures r.Some? ==> HasNoFollower(invs, r.value)
    ensures r.Some? ==> r.value == cur || r.value in invs
    decreases fuel
  {
    match FindFollower(invs, cur.id)
    case None => Some(cur)
    case Some(j) => if fuel == 0 then None else LatestFrom(invs, invs[j], fuel - 1)
  }

  /** Outcome of the backward walk. */
  datatype RootWalk = Reached(root: Invoice) | Dangling | Unended

  /**
   * The backward walk from `cur` along `previousInvoiceId` through the index. `Dangling` when
   * a back-link names no invoice; `Unended` when `fuel` steps did not reach a root.
   */
  function RootFrom(index: map<string, Invoice>, cur: Invoice, fuel: nat): (r: RootWalk)
    ensures r.Reached? ==> r.root.previousInvoiceId.None?
    decreases fuel
  {
    match cur.previousInvoiceId
    case None => Reached(cur)
    case Some(p) =>
      if p !in index then Dangling
      else if fuel == 0 then Unended
      else RootFrom(index, index[p], fuel - 1)
  }

  /** The forward walk from invoice `id` ends within |invs| steps. */
  predicate ForwardWalkEnds(invs: seq<Invoice>, id: string)
  {
    id in Index(invs) ==> LatestFrom(invs, Index(invs)[id], |invs|).Some?
  }

  /** The backward walk from invoice `id` ends (at a root or a dangling link) within |invs| steps. */
  predicate BackwardWalkEnds(invs: seq<Invoice>, id: string)
  {
    id in Index(invs) ==> !RootFrom(Index(invs), Index(invs)[id], |invs|).Unended?
  }

  /** What `getLatestInvoiceByAnyId(id)` returns. */
  function LatestOf(invs: seq<Invoice>, id: string): Option<Invoice>
    requires ForwardWalkEnds(invs, id)
  {
    if id in Index(invs) then LatestFrom(invs, Index(invs)[id], |invs|) else None
  }

  /** What `getRootInvoiceByAnyId(id)` returns, or throws on a dangling back-link. */
  function RootOf(invs: seq<Invoice>, id: string): Result<Option<Invoice>, Failure>
    requires BackwardWalkEnds(invs, id)
  {
    if id !in Index(invs) then Ok(None)
    else
      match RootFrom(Index(invs), Index(invs)[id], |invs|)
      case Reached(root) => Ok(Some(root))
      case Dangling => Err(BrokenChain)
      case Unended => Err(BrokenChain)  // excluded by BackwardWalkEnds
  }

  /** One step of the forward walk, for a walk that ends. */
  lemma LatestFromStep(invs: seq<Invoice>, cur: Invoice, fuel: nat)
    requires LatestFrom(invs, cur, fuel).Some?
    ensures FindFollower(invs, cur.id).None? ==> LatestFrom(invs, cur, fuel) == Some(cur)
    ensures FindFollower(invs, cur.id).Some? ==>
              fuel > 0 && LatestFrom(invs, cur, fuel) == LatestFrom(invs, invs[FindFollower(invs, cur.id).value], fuel - 1)
  {
  }

  /** One step of the backward walk through a back-link the index resolves. */
  lemma RootFromStep(index: map<string, Invoice>, cur: Invoice, fuel: nat)
    requires !RootFrom(index, cur, fuel).Unended?
    requires cur.previousInvoiceId.Some? && cur.previousInvoiceId.value in index
    ensures fuel > 0 && RootFrom(index, cur, fuel) == RootFrom(index, index[cur.previousInvoiceId.value], fuel - 1)
  {
  }

  /** `getLatestInvoiceByAnyId` (invoice.repo.js:13-40) over one scan of the table. */
  method GetLatestInvoiceByAnyId(invs: seq<Invoice>, invoiceId: string) returns (r: Option<Invoice>)
    requires ForwardWalkEnds(invs, invoiceId)
    ensures r == LatestOf(invs, invoiceId)
    ensures r.None? <==> forall j :: 0 <= j < |invs| ==> invs[j].id != invoiceId
    ensures r.Some? ==> r.value in invs && HasNoFollower(invs, r.value)
  {
    var map_ := BuildIndex(invs, InvoiceKey);
    assert forall j :: 0 <= j < |invs| ==> InvoiceKey(invs[j]) == invs[j].id;
    if invoiceId !in map_ {
      return None;
    }
    var current := WalkToLatest(invs, map_[invoiceId]);
    r := Some(current);
  }

  /** The `while (true)` loop of `getLatestInvoiceByAnyId`: follow first followers to the end. */
  method WalkToLatest(invs: seq<Invoice>, start: Invoice) returns (current: Invoice)
    requires start in invs && LatestFrom(invs, start, |invs|).Some?
    ensures Some(current) == LatestFrom(invs, start, |invs|)
  {
    current := start;
    ghost var fuel: nat := |invs|;
    while true
      invariant current in invs
      invariant LatestFrom(invs, current, fuel) == LatestFrom(invs, start, |invs|)
      invariant LatestFrom(invs, current, fuel).Some?
      decreases fuel
    {
      var next := FindFollower(invs, current.id);
      LatestFromStep(invs, current, fuel);
      if next.None? {
        break;
      }
      current := invs[next.value];
      fuel := fuel - 1;
    }
  }

  /**
   * `getRootInvoiceByAnyId` (invoice.repo.js:42-60). A back-link to a missing invoice makes
   * `current` undefined and the next loop test throw; that is `Err(BrokenChain)`.
   */
  method GetRootInvoiceByAnyId(invs: seq<Invoice>, invoiceId: string)
    returns (r: Result<Option<Invoice>, Failure>)
    requires BackwardWalkEnds(invs, invoiceId)
    ensures r == RootOf(invs, invoiceId)
    ensures r == Ok(None) <==> forall j :: 0 <= j < |invs| ==> invs[j].id != invoiceId
    ensures r.Ok? && r.value.Some? ==> r.value.value in invs && r.value.value.previousInvoiceId.None?
  {
    var map_ := BuildIndex(invs, InvoiceKey);
    assert forall j :: 0 <= j < |invs| ==> InvoiceKey(invs[j]) == invs[j].id;
    if invoiceId !in map_ {
      return Ok(None);
    }
    r := WalkToRoot(invs, map_, map_[invoiceId], |invs|);
  }

  /**
   * The `while (current.previousInvoiceId)` loop of `getRootInvoiceByAnyId`: follow
   * back-links through the index to a root, or fail on one the index does not resolve.
   */
  method WalkToRoot(ghost invs: seq<Invoice>, index: map<string, Invoice>, start: Invoice, ghost steps: nat)
    returns (r: Result<Option<Invoice>, Failure>)
    requires start in invs && forall id :: id in index ==> index[id] in invs
    requires !RootFrom(index, start, steps).Unended?
    ensures r.Ok? && r.value.Some? ==> r.value.value in invs
    ensures RootFrom(index, start, steps).Dangling? ==> r == Err(BrokenChain)
    ensures RootFrom(index, start, steps).Reached? ==> r == Ok(Some(RootFrom(index, start, steps).root))
  {
    var current := start;
    ghost var fuel: nat := steps;
    while current.previousInvoiceId.Some?
      invariant current in invs
      invariant RootFrom(index, current, fuel) == RootFrom(index, start, steps)
      invariant !RootFrom(index, current, fuel).Unended?
      decreases fuel
    {
      var p := current.previousInvoiceId.value;
      if p !in index {
        return Err(BrokenChain);
      }
      RootFromStep(index, current, fuel);
      current := index[p];
      fuel := fuel - 1;
    }
    r := Ok(Some(current));
  }

  // ---------------------------------------------------------------------------
  // Properties of the resolvers on well-formed chains.

  /**
   * `chain` is one invoice's whole version history, oldest first: the first version has
   * no back-link, each later one links to its predecessor, and nothing else in the table
   * links to a member of the chain (no branching).
   */
  ghost predicate IsLinearChain(invs: seq<Invoice>, chain: seq<Invoice>)
  {
    && UniqueIds(invs)
    && |chain| > 0
    && (forall k :: 0 <= k < |chain| ==> chain[k] in invs)
    && chain[0].previousInvoiceId.None?
    && (forall k :: 0 < k < |chain| ==> chain[k].previousInvoiceId == Some(chain[k - 1].id))
    && (forall k, j :: 0 <= k < |chain| && 0 <= j < |invs| && invs[j].previousInvoiceId == Some(chain[k].id)
          ==> k + 1 < |chain| && invs[j] == chain[k + 1])
  }

  lemma IndexFindsInvoice(invs: seq<Invoice>, inv: Invoice)
    requires UniqueIds(invs) && inv in invs
    ensures inv.id in Index(invs) && Index(invs)[inv.id] == inv
  {
    var j :| 0 <= j < |invs| && invs[j] == inv;
    IndexFindsRow(invs, InvoiceKey, j);
  }

  /** The versions of a linear chain are pairwise distinct. */
  lemma {:induction false} ChainDistinct(invs: seq<Invoice>, chain: seq<Invoice>, i: nat, j: nat)
    requires IsLinearChain(invs, chain) && i < j < |chain|
    ensures chain[i] != chain[j]
    decreases i
  {
    if chain[i] == chain[j] {
      assert chain[j].previousInvoiceId == Some(chain[j - 1].id);
      if i == 0 {
        assert false;
      } else {
        assert chain[i].previousInvoiceId == Some(chain[i - 1].id);
        IndexFindsInvoice(invs, chain[i - 1]);
        IndexFindsInvoice(invs, chain[j - 1]);
        ChainDistinct(invs, chain, i - 1, j - 1);
        assert false;
      }
    }
  }

  /** A sequence of distinct elements has as many elements as its set. */
  lemma {:induction false} DistinctCard<T>(s: seq<T>)
    requires forall i, j :: 0 <= i < j < |s| ==> s[i] != s[j]
    ensures |set x | x in s| == |s|
  {
    if s != [] {
      var front := s[..|s| - 1];
      DistinctCard(front);
      assert (set x | x in s) == (set x | x in front) + {s[|s| - 1]};
      assert s[|s| - 1] !in front;
    }
  }

  lemma {:induction false} SetCardAtMost<T>(s: seq<T>)
    ensures |set x | x in s| <= |s|
  {
    if s != [] {
      var front := s[..|s| - 1];
      SetCardAtMost(front);
      assert (set x | x in s) == (set x | x in front) + {s[|s| - 1]};
    }
  }

  /** A linear chain is no longer than the table holding it. */
  lemma ChainFits(invs: seq<Invoice>, chain: seq<Invoice>)
    requires IsLinearChain(invs, chain)
    ensures |chain| <= |invs|
  {
    forall i, j | 0 <= i < j < |chain| ensures chain[i] != chain[j] {
      ChainDistinct(invs, chain, i, j);
    }
    DistinctCard(chain);
    SetCardAtMost(invs);
    var inChain, inTable := set x | x in chain, set x | x in invs;
    assert inChain <= inTable;
    assert inTable == inChain + (inTable - inChain);
  }

  /** On a linear chain, the first follower of each version is the next version. */
  lemma FollowerInChain(invs: seq<Invoice>, chain: seq<Invoice>, k: nat)
    requires IsLinearChain(invs, chain) && k < |chain|
    ensures k + 1 < |chain| ==> FindFollower(invs, chain[k].id).Some?
                                && invs[FindFollower(invs, chain[k].id).value] == chain[k + 1]
    ensures k + 1 == |chain| ==> FindFollower(invs, chain[k].id).None?
  {
    if k + 1 < |chain| {
      var j :| 0 <= j < |invs| && invs[j] == chain[k + 1];
      assert invs[j].previousInvoiceId == Some(chain[k].id);
    }
  }

  /** Along `chain`, each version's first follower is the next version and the last has none. */
  ghost predicate WalksForward(invs: seq<Invoice>, chain: seq<Invoice>)
  {
    && |chain| > 0
    && (forall i :: 0 <= i < |chain| - 1 ==>
          FindFollower(invs, chain[i].id).Some? && invs[FindFollower(invs, chain[i].id).value] == chain[i + 1])
    && FindFollower(invs, chain[|chain| - 1].id).None?
  }

  lemma LinearChainWalksForward(invs: seq<Invoice>, chain: seq<Invoice>)
    requires IsLinearChain(invs, chain)
    ensures WalksForward(invs, chain)
  {
    forall i | 0 <= i < |chain| - 1
      ensures FindFollower(invs, chain[i].id).Some? && invs[FindFollower(invs, chain[i].id).value] == chain[i + 1]
    {
      FollowerInChain(invs, chain, i);
    }
    FollowerInChain(invs, chain, |chain| - 1);
  }

  lemma {:induction false} LatestAlongChain(invs: seq<Invoice>, chain: seq<Invoice>, k: nat, fuel: nat)
    requires WalksForward(invs, chain) && k < |chain| && fuel + k + 1 >= |chain|
    ensures LatestFrom(invs, chain[k], fuel) == Some(chain[|chain| - 1])
    decreases |chain| - k
  {
    if k + 1 < |chain| {
      LatestStep(invs, chain[k], chain[k + 1], fuel);
      LatestAlongChain(invs, chain, k + 1, fuel - 1);
    }
  }

  /** One step of the forward walk, to the first follower. */
  lemma LatestStep(invs: seq<Invoice>, cur: Invoice, next: Invoice, fuel: nat)
    requires FindFollower(invs, cur.id).Some? && invs[FindFollower(invs, cur.id).value] == next && fuel > 0
    ensures LatestFrom(invs, cur, fuel) == LatestFrom(invs, next, fuel - 1)
  {
  }

  /** One step of the backward walk, through a back-link the index resolves. */
  lemma RootStep(m: map<string, Invoice>, inv: Invoice, prev: Invoice, fuel: nat)
    requires inv.previousInvoiceId == Some(prev.id) && prev.id in m && m[prev.id] == prev && fuel > 0
    ensures RootFrom(m, inv, fuel) == RootFrom(m, prev, fuel - 1)
  {
  }

  /** Along `chain`, each back-link resolves through the index to the previous version. */
  ghost predicate WalksBack(index: map<string, Invoice>, chain: seq<Invoice>)
  {
    && |chain| > 0
    && chain[0].previousInvoiceId.None?
    && (forall k :: 0 <= k < |chain| - 1 ==>
          chain[k + 1].previousInvoiceId == Some(chain[k].id)
          && chain[k].id in index && index[chain[k].id] == chain[k])
  }

  lemma LinearChainWalksBack(invs: seq<Invoice>, chain: seq<Invoice>)
    requires IsLinearChain(invs, chain)
    ensures WalksBack(Index(invs), chain)
  {
    forall k | 0 <= k < |chain| - 1
      ensures chain[k].id in Index(invs) && Index(invs)[chain[k].id] == chain[k]
    {
      IndexFindsInvoice(invs, chain[k]);
    }
  }

  lemma {:induction false} RootAlongChain(index: map<string, Invoice>, chain: seq<Invoice>, k: nat, fuel: nat)
    requires WalksBack(index, chain) && k < |chain| && fuel >= k
    ensures RootFrom(index, chain[k], fuel) == Reached(chain[0])
  {
    if k == 0 {
      assert chain[0].previousInvoiceId.None?;
    } else {
      assert chain[k - 1 + 1] == chain[k];
      RootStep(index, chain[k], chain[k - 1], fuel);
      RootAlongChain(index, chain, k - 1, fuel - 1);
    }
  }

  /**
   * Resolving from ANY version of a linear chain gives the chain's first version as root
   * and its last version as latest: the same answers as resolving from the root.
   */
  lemma ResolveFromAnyVersion(invs: seq<Invoice>, chain: seq<Invoice>, k: nat)
    requires IsLinearChain(invs, chain) && k < |chain|
    ensures ForwardWalkEnds(invs, chain[k].id) && BackwardWalkEnds(invs, chain[k].id)
    ensures LatestOf(invs, chain[k].id) == Some(chain[|chain| - 1])
    ensures RootOf(invs, chain[k].id) == Ok(Some(chain[0]))
  {
    ChainFits(invs, chain);
    IndexFindsInvoice(invs, chain[k]);
    LinearChainWalksForward(invs, chain);
    LatestAlongChain(invs, chain, k, |invs|);
    LinearChainWalksBack(invs, chain);
    RootAlongChain(Index(invs), chain, k, |invs|);
  }

  /** A lone invoice, without back-link or follower, is its own root and its own latest. */
  lemma LoneInvoice(invs: seq<Invoice>, inv: Invoice)
    requires UniqueIds(invs) && inv in invs
    requires inv.previousInvoiceId.None? && HasNoFollower(invs, inv)
    ensures ForwardWalkEnds(invs, inv.id) && BackwardWalkEnds(invs, inv.id)
    ensures LatestOf(invs, inv.id) == Some(inv) && RootOf(invs, inv.id) == Ok(Some(inv))
  {
    assert IsLinearChain(invs, [inv]);
    ResolveFromAnyVersion(invs, [inv], 0);
  }
}
