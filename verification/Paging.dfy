/** `ReconciliationJob.reconcile`: keyset paging over the active organizations. */
module Paging {

  import opened Sql

  const PAGE_SIZE: nat := 100

  predicate Ascending(ids: seq<nat>) {
    forall i, j | 0 <= i < j < |ids| :: ids[i] < ids[j]
  }

  /** Active organizations past the cursor. */
  function Rest(active: set<nat>, cursor: nat): set<nat> {
    set id | id in active && cursor < id
  }

  /** ORDER BY id LIMIT 100: ascending, past the cursor, and nothing skipped. */
  predicate IsPage(active: set<nat>, cursor: nat, page: seq<nat>) {
    && Ascending(page)
    && |page| <= 100
    && (forall id <- page :: id in active && cursor < id)
    && (forall id <- active :: cursor < id ==> id in page || (|page| == 100 && page[99] < id))
  }

  method Smallest(ids: set<nat>) returns (least: nat)
    requires ids != {}
    ensures least in ids && forall id <- ids :: least <= id
  {
    least :| least in ids;
    var left := ids - {least};
    while left != {}
      invariant left <= ids && least in ids
      invariant forall id <- ids :: id in left || least <= id
      decreases left
    {
      var id :| id in left;
      if id < least {
        least := id;
      }
      left := left - {id};
    }
  }

  /** `ListBillingOrganizationReconciliationTargets`. */
  method ListTargets(active: set<nat>, cursor: nat) returns (page: seq<nat>)
    ensures IsPage(active, cursor, page)
  {
    page := [];
    var left := Rest(active, cursor);
    while |page| < PAGE_SIZE && left != {}
      invariant |page| <= PAGE_SIZE && Ascending(page)
      invariant left <= Rest(active, cursor)
      invariant forall id <- page :: id in Rest(active, cursor) && id !in left
      invariant forall id <- Rest(active, cursor) :: id in left || id in page
      invariant forall id <- left, k | 0 <= k < |page| :: page[k] < id
      decreases left
    {
      var least := Smallest(left);
      page := page + [least];
      left := left - {least};
    }
  }

  datatype Outcome = Completed | Cancelled | CursorStuck

  /** Called so far: in ascending order, nothing inactive, nothing passed over. */
  predicate IsPrefix(active: set<nat>, called: seq<nat>) {
    && Ascending(called)
    && (forall id <- called :: id in Rest(active, NIL))
    && (forall id <- Rest(active, NIL) :: id in called || called == [] || called[|called| - 1] < id)
  }

  /** The calls for one page, until the context is cancelled. */
  method CallPage(active: set<nat>, cursor: nat, before: seq<nat>, page: seq<nat>, patience: nat)
    returns (called: seq<nat>, cancelled: bool)
    requires IsPage(active, cursor, page)
    requires cursor == if before == [] then NIL else before[|before| - 1]
    requires IsPrefix(active, before) && |before| <= patience
    ensures IsPrefix(active, called) && |called| <= patience
    ensures cancelled ==> |called| == patience < |Rest(active, NIL)|
    ensures !cancelled ==> called == before + page
  {
    called := before;
    var i := 0;
    while i < |page|
      invariant 0 <= i <= |page|
      invariant called == before + page[..i]
      invariant IsPrefix(active, called) && |called| <= patience
    {
      NextInPage(active, cursor, before, page, i);
      assert page[..i + 1] == page[..i] + [page[i]];
      if |called| == patience {
        PrefixGrows(active, called, page[i]);
        return called, true;
      }
      called := called + [page[i]];
      i := i + 1;
    }
    assert page[..i] == page;
    cancelled := false;
  }

  /** The paging loop. `patience` is the number of organizations after which the
      context is cancelled, if ever. The service is called in ascending order, at
      most once for each active organization; a run that is not cancelled calls it
      for all of them, save one whose id is the nil id, so for every one exactly when
      none has it; the cursor always advances. */
  method Reconcile(active: set<nat>, patience: nat) returns (called: seq<nat>, outcome: Outcome)
    ensures outcome != CursorStuck
    ensures IsPrefix(active, called)
    ensures outcome.Cancelled? ==> |called| == patience < |Rest(active, NIL)|
    ensures outcome.Completed? ==> (forall id <- active :: id in called <==> id != NIL)
    ensures outcome.Completed? ==> ((forall id <- active :: id in called) <==> NIL !in active)
    ensures outcome.Completed? ==> |called| == |Rest(active, NIL)| <= patience
  {
    called := [];
    var cursor := NIL;
    while true
      invariant IsPrefix(active, called) && |called| <= patience
      invariant cursor == if called == [] then NIL else called[|called| - 1]
      decreases Rest(active, cursor)
    {
      var page := ListTargets(active, cursor);
      ghost var before := called;
      var cancelled;
      called, cancelled := CallPage(active, cursor, called, page, patience);
      if cancelled {
        return called, Cancelled;
      }
      if |page| < PAGE_SIZE {
        LastPage(active, cursor, before, page);
        return called, Completed;
      }
      var next := page[|page| - 1];
      assert next in page;
      if next == cursor {
        return called, CursorStuck;
      }
      assert next in Rest(active, cursor) && next !in Rest(active, next);
      cursor := next;
    }
  }

  lemma LastPage(active: set<nat>, cursor: nat, before: seq<nat>, page: seq<nat>)
    requires IsPage(active, cursor, page) && |page| < PAGE_SIZE
    requires cursor == if before == [] then NIL else before[|before| - 1]
    requires IsPrefix(active, before) && IsPrefix(active, before + page)
    ensures forall id <- active :: id in before + page <==> id != NIL
    ensures |before + page| == |Rest(active, NIL)|
  {
    forall id | id in Rest(active, NIL) ensures id in before + page {
      assert id in before || id in page;
    }
    AscendingSize(before + page);
    assert ToSet(before + page) == Rest(active, NIL);
  }

  /** The page continues the calls made before it. */
  lemma NextInPage(active: set<nat>, cursor: nat, before: seq<nat>, page: seq<nat>, i: nat)
    requires IsPage(active, cursor, page) && i < |page|
    requires cursor == if before == [] then NIL else before[|before| - 1]
    requires IsPrefix(active, before + page[..i])
    ensures IsPrefix(active, before + page[..i] + [page[i]])
  {
    var called := before + page[..i];
    assert page[i] in page;
    assert called != [] ==> called[|called| - 1] < page[i] by {
      if i > 0 {
        assert called[|called| - 1] == page[i - 1];
      } else {
        assert called == before;
      }
    }
    assert forall k | 0 <= k < i :: page[k] == called[|before| + k];
    forall id | id in Rest(active, NIL) && id !in called
      ensures id == page[i] || page[i] < id
    {
      assert before != [] ==> before[|before| - 1] == called[|before| - 1];
      if id in page {
        var k :| 0 <= k < |page| && page[k] == id;
      }
    }
  }

  function ToSet(ids: seq<nat>): set<nat> {
    set id | id in ids
  }

  lemma {:induction false} AscendingSize(ids: seq<nat>)
    requires Ascending(ids)
    ensures |ToSet(ids)| == |ids|
  {
    if ids != [] {
      var n := |ids| - 1;
      AscendingSize(ids[..n]);
      assert ids == ids[..n] + [ids[n]];
      assert ToSet(ids) == ToSet(ids[..n]) + {ids[n]};
      assert ids[n] !in ids[..n];
    }
  }

  lemma PrefixGrows(active: set<nat>, called: seq<nat>, next: nat)
    requires IsPrefix(active, called) && IsPrefix(active, called + [next])
    ensures |called| < |Rest(active, NIL)|
  {
    var ids := called + [next];
    AscendingSize(ids);
    assert Rest(active, NIL) == ToSet(ids) + (Rest(active, NIL) - ToSet(ids));
  }
}
