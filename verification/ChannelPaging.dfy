/** The batch loops over enabled channels, which page by "id greater than the last one seen". */
module ChannelPaging {

  predicate Ascending(ids: seq<int>) {
    forall i, j :: 0 <= i < j < |ids| ==> ids[i] < ids[j]
  }

  lemma AscendingAppend(a: seq<int>, b: seq<int>)
    requires Ascending(a) && Ascending(b) && forall x, y :: x in a && y in b ==> x < y
    ensures Ascending(a + b)
  {
    forall i, j | 0 <= i < j < |a + b| ensures (a + b)[i] < (a + b)[j] {
      if i < |a| <= j {
        assert a[i] in a && b[j - |a|] in b;
      }
    }
  }

  /** The query's WHERE clause: no lower bound on the first page. */
  predicate Eligible(id: int, lastID: int) {
    lastID > 0 ==> id > lastID
  }

  /** The rows "ORDER BY id LIMIT batch" may return. */
  ghost predicate IsPage(page: seq<int>, enabled: set<int>, lastID: int, batch: nat) {
    && Ascending(page)
    && |page| <= batch
    && (forall id :: id in page ==> id in enabled && Eligible(id, lastID))
    && (forall id :: id in enabled && Eligible(id, lastID) && id !in page ==>
                     |page| == batch && forall p :: p in page ==> p < id)
  }

  method Pick<T>(s: set<T>) returns (x: T)
    requires s != {}
    ensures x in s
  {
    x :| x in s;
  }

  method Least(ids: set<int>) returns (m: int)
    requires ids != {}
    ensures m in ids && forall x :: x in ids ==> m <= x
  {
    m := Pick(ids);
    var rest := ids - {m};
    while rest != {}
      invariant m in ids && rest <= ids
      invariant forall x :: x in ids && x !in rest ==> m <= x
      decreases rest
    {
      var x := Pick(rest);
      rest := rest - {x};
      if x < m {
        m := x;
      }
    }
  }

  method FindEnabledAfter(enabled: set<int>, lastID: int, batch: nat) returns (page: seq<int>)
    ensures IsPage(page, enabled, lastID, batch)
  {
    var left := set id | id in enabled && Eligible(id, lastID);
    page := [];
    while left != {} && |page| < batch
      invariant Ascending(page) && |page| <= batch
      invariant forall id :: id in page ==> id in enabled && Eligible(id, lastID)
      invariant forall id :: id in enabled && Eligible(id, lastID) ==> id in left || id in page
      invariant forall id, p :: id in left && p in page ==> p < id
      invariant forall id :: id in left ==> id in enabled && Eligible(id, lastID)
      decreases left
    {
      var m := Least(left);
      left := left - {m};
      AscendingAppend(page, [m]);
      page := page + [m];
    }
  }

  /** Every id up to the last visited one that every query so far would have seen is visited. */
  ghost predicate CompleteSoFar(visited: seq<int>, snapshots: nat -> set<int>, pages: nat) {
    forall id, last :: last in visited && 0 < id <= last && EnabledThroughout(id, snapshots, pages) ==> id in visited
  }

  ghost predicate EnabledThroughout(id: int, snapshots: nat -> set<int>, pages: nat) {
    forall k: nat :: k < pages ==> id in snapshots(k)
  }

  /** The paging loop. Between two queries other requests may insert, delete, enable or disable
      channels: snapshots(k) is the set of enabled ids the k-th query sees, and queryOk(k) says whether it
      succeeds; the first failed query ends the loop. No channel is visited twice; every channel enabled
      throughout is visited, up to the last visited one if a query failed; and the loop ends. */
  method VisitEnabled(snapshots: nat -> set<int>, queryOk: nat -> bool, batch: nat, ghost maxId: int)
    returns (visited: seq<int>, pages: nat, failed: bool)
    requires batch >= 1
    requires forall k, id :: id in snapshots(k) ==> 0 < id <= maxId
    ensures Ascending(visited) && pages >= 1
    ensures forall k: nat :: k < pages ==> (queryOk(k) <==> !(failed && k == pages - 1))
    ensures forall id :: id in visited ==> exists k: nat :: k < pages && id in snapshots(k)
    ensures CompleteSoFar(visited, snapshots, pages)
    ensures !failed ==> forall id :: EnabledThroughout(id, snapshots, pages) ==> id in visited
  {
    var lastID := 0;
    visited, pages, failed := [], 0, false;
    while true
      invariant lastID >= 0 && (pages > 0 ==> 0 < lastID <= maxId)
      invariant pages == 0 ==> visited == [] && lastID == 0
      invariant !failed && forall k: nat :: k < pages ==> queryOk(k)
      invariant Ascending(visited) && forall id :: id in visited ==> id <= lastID
      invariant forall id :: id in visited ==> exists k: nat :: k < pages && id in snapshots(k)
      invariant forall id :: 0 < id <= lastID && EnabledThroughout(id, snapshots, pages) ==> id in visited
      decreases if pages == 0 then 1 else 0, maxId - lastID
    {
      var n := pages;
      pages := pages + 1;
      assert forall id :: EnabledThroughout(id, snapshots, pages) ==>
          id in snapshots(n) && EnabledThroughout(id, snapshots, n);
      if !queryOk(n) {
        failed := true;
        break;
      }
      var page := FindEnabledAfter(snapshots(n), lastID, batch);
      assert forall id :: id in page ==> id in snapshots(n);
      if |page| == 0 {
        break;
      }
      lastID := page[|page| - 1];
      assert lastID in page;
      AscendingAppend(visited, page);
      visited := visited + page;
      if |page| < batch {
        break;
      }
    }
  }

  /** With a table that does not change, and processing writes only settings and models, the loop visits the enabled
      channels in ascending order, each once: all of them, or those up to some id if a query failed. */
  method VisitFixed(enabled: set<int>, queryOk: nat -> bool, batch: nat, ghost maxId: int)
    returns (visited: seq<int>, failed: bool)
    requires batch >= 1
    requires forall id :: id in enabled ==> 0 < id <= maxId
    ensures Ascending(visited) && forall id :: id in visited ==> id in enabled
    ensures forall id, last :: last in visited && id in enabled && id <= last ==> id in visited
    ensures !failed ==> forall id :: id in enabled ==> id in visited
    ensures (forall k: nat :: queryOk(k)) ==> !failed
  {
    var pages;
    visited, pages, failed := VisitEnabled(_ => enabled, queryOk, batch, maxId);
    assert forall id :: id in enabled ==> EnabledThroughout(id, _ => enabled, pages);
    assert failed ==> !queryOk(pages - 1);
  }
}
