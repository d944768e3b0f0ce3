/**
 * The `purchases` table as the payment code sees it: which rows a payment
 * for a (user, product) pair may settle, how many of them there are, and
 * what the settling UPDATE does to the table.
 */
module Purchases {
  import opened Schema

  /** `row` belongs to the buyer and product of a payment and is still awaiting it. */
  predicate IsPendingFor(row: Purchase, userId: int, productId: int) {
    row.userId == userId && row.productId == productId && row.status == Pending
  }

  /** The number of rows still pending for the pair. */
  function PendingCount(rows: seq<Purchase>, userId: int, productId: int): nat {
    if |rows| == 0 then 0
    else PendingCount(rows[..|rows| - 1], userId, productId) +
         (if IsPendingFor(rows[|rows| - 1], userId, productId) then 1 else 0)
  }

  /**
   * Row `i` is one the settling update may pick, newest first: a pending
   * row of the pair whose `created_at` no other pending row of the pair exceeds.
   * Timestamps have one-second resolution, so several rows may qualify.
   */
  predicate IsLatestPending(rows: seq<Purchase>, i: int, userId: int, productId: int) {
    0 <= i < |rows| && IsPendingFor(rows[i], userId, productId) &&
    forall j :: 0 <= j < |rows| && IsPendingFor(rows[j], userId, productId) ==> rows[j].createdAt <= rows[i].createdAt
  }

  /** No pending row of the pair is left exactly when the count is zero. */
  lemma {:induction false} PendingCountZero(rows: seq<Purchase>, userId: int, productId: int)
    ensures PendingCount(rows, userId, productId) == 0 <==>
      forall k :: 0 <= k < |rows| ==> !IsPendingFor(rows[k], userId, productId)
  {
    if |rows| > 0 {
      var init := rows[..|rows| - 1];
      PendingCountZero(init, userId, productId);
      assert forall k :: 0 <= k < |init| ==> init[k] == rows[k];
    }
  }

  /** Whenever some row of the pair is pending, a most recent one exists. */
  lemma {:induction false} LatestPendingExists(rows: seq<Purchase>, userId: int, productId: int)
    requires PendingCount(rows, userId, productId) > 0
    ensures exists i :: IsLatestPending(rows, i, userId, productId)
  {
    var n := |rows|;
    var init := rows[..n - 1];
    assert forall k :: 0 <= k < |init| ==> init[k] == rows[k];
    if PendingCount(init, userId, productId) > 0 {
      LatestPendingExists(init, userId, productId);
      var i0 :| IsLatestPending(init, i0, userId, productId);
      if IsPendingFor(rows[n - 1], userId, productId) && rows[n - 1].createdAt > rows[i0].createdAt {
        assert IsLatestPending(rows, n - 1, userId, productId);
      } else {
        assert IsLatestPending(rows, i0, userId, productId);
      }
    } else {
      PendingCountZero(init, userId, productId);
      assert IsLatestPending(rows, n - 1, userId, productId);
    }
  }

  /** `before` becomes `after` by a status change pending -> paid, or not at all. */
  predicate Promoted(before: Purchase, after: Purchase) {
    after == before || (before.status == Pending && after == before.(status := Paid))
  }

  /**
   * `after` keeps every row of `before` in place, each unchanged or promoted
   * from pending to paid (rows may be appended): no paid row is ever demoted,
   * and no field other than the status ever changes.
   */
  predicate OnlyPromotes(before: seq<Purchase>, after: seq<Purchase>) {
    |before| <= |after| && forall k :: 0 <= k < |before| ==> Promoted(before[k], after[k])
  }

  /** Any run of table changes that each only promote, taken together, only promotes. */
  lemma OnlyPromotesTransitive(a: seq<Purchase>, b: seq<Purchase>, c: seq<Purchase>)
    requires OnlyPromotes(a, b) && OnlyPromotes(b, c)
    ensures OnlyPromotes(a, c)
  {
  }

  /** The table after `SET status = 'paid'` on row `i`: that row is paid and no other row differs. */
  function MarkPaid(rows: seq<Purchase>, i: int): (r: seq<Purchase>)
    requires 0 <= i < |rows|
    ensures |r| == |rows| && r[i].status == Paid
    ensures forall k :: 0 <= k < |rows| && k != i ==> r[k] == rows[k]
    ensures OnlyPromotes(rows, r)
  {
    rows[i := rows[i].(status := Paid)]
  }

  /** Settling row `i` lowers the pending count of its own pair by one and of every other pair by none. */
  lemma {:induction false} MarkPaidPendingCount(rows: seq<Purchase>, i: int, userId: int, productId: int)
    requires 0 <= i < |rows|
    ensures PendingCount(MarkPaid(rows, i), userId, productId) ==
      PendingCount(rows, userId, productId) - (if IsPendingFor(rows[i], userId, productId) then 1 else 0)
  {
    var n := |rows|;
    var r := MarkPaid(rows, i);
    if i == n - 1 {
      assert r[..n - 1] == rows[..n - 1];
      assert !IsPendingFor(r[n - 1], userId, productId);
    } else {
      assert r[..n - 1] == MarkPaid(rows[..n - 1], i);
      MarkPaidPendingCount(rows[..n - 1], i, userId, productId);
    }
  }

  /** Appending a row raises the pending count of its pair by one if the row is pending. */
  lemma AppendPendingCount(rows: seq<Purchase>, row: Purchase, userId: int, productId: int)
    ensures PendingCount(rows + [row], userId, productId) ==
      PendingCount(rows, userId, productId) + (if IsPendingFor(row, userId, productId) then 1 else 0)
  {
  }

  /**
   * Settling is not idempotent: after the most recent pending row of a pair
   * with two or more pending rows is paid, a repeated settlement finds a
   * different row to pay.
   */
  lemma ReplaySettlesAnotherRow(rows: seq<Purchase>, i: int, userId: int, productId: int)
    requires IsLatestPending(rows, i, userId, productId)
    requires PendingCount(rows, userId, productId) >= 2
    ensures exists j :: j != i && IsLatestPending(MarkPaid(rows, i), j, userId, productId)
  {
    var r := MarkPaid(rows, i);
    MarkPaidPendingCount(rows, i, userId, productId);
    LatestPendingExists(r, userId, productId);
    var j :| IsLatestPending(r, j, userId, productId);
    assert j != i;
  }

  /**
   * The row a payment settles need not be the one its invoice created: when a
   * pending row `row` is appended whose `created_at` does not exceed that of an
   * older most recent pending row `i` of the pair, row `i` stays a candidate,
   * and the new row is one as well exactly when the two timestamps are equal.
   */
  lemma NewRowNeedNotBeSettled(rows: seq<Purchase>, i: int, row: Purchase, userId: int, productId: int)
    requires IsLatestPending(rows, i, userId, productId)
    requires IsPendingFor(row, userId, productId) && row.createdAt <= rows[i].createdAt
    ensures IsLatestPending(rows + [row], i, userId, productId)
    ensures IsLatestPending(rows + [row], |rows|, userId, productId) <==> row.createdAt == rows[i].createdAt
  {
  }
}
