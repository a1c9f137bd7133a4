/**
 * The data migration that gives every customer enrollment its serial number
 * `sn` within its branch, and its reverse.  The enrollments are walked in the
 * order the migration's queryset returns them (by branch, then creation time);
 * the array holds them in that order.  A per-branch counter, zero for a branch
 * not seen yet, is incremented and written to the enrollment.
 */
module EnrollmentSn {
  import opened Wrappers
  import Database

  /** The fields of an enrollment row the migration reads or writes. */
  datatype SnRow = SnRow(id: Database.EnrollmentId, branch: Database.BranchId, created: int, sn: Option<nat>)

  /** How many of `rows` belong to branch `b`. */
  function CountIn(rows: seq<SnRow>, b: Database.BranchId): (n: nat)
    ensures n <= |rows|
  {
    if rows == [] then 0
    else CountIn(rows[..|rows| - 1], b) + (if rows[|rows| - 1].branch == b then 1 else 0)
  }

  /** The serial number the migration gives to the `i`-th row. */
  function SnAt(rows: seq<SnRow>, i: nat): nat
    requires i < |rows|
  {
    CountIn(rows[..i], rows[i].branch) + 1
  }

  /** The rows after the migration: each gets its serial number, nothing else changes. */
  function Numbered(rows: seq<SnRow>): (r: seq<SnRow>)
    ensures |r| == |rows|
    ensures forall i :: 0 <= i < |rows| ==> r[i] == rows[i].(sn := Some(SnAt(rows, i)))
  {
    seq(|rows|, i requires 0 <= i < |rows| => rows[i].(sn := Some(SnAt(rows, i))))
  }

  /** `branch_counters[b]` of the `defaultdict(int)`. */
  function Counter(counters: map<Database.BranchId, nat>, b: Database.BranchId): nat {
    if b in counters then counters[b] else 0
  }

  /** `populate_sn`. */
  method PopulateSn(a: array<SnRow>)
    modifies a
    ensures a[..] == Numbered(old(a[..]))
  {
    ghost var rows := a[..];
    var counters: map<Database.BranchId, nat> := map[];
    for i := 0 to a.Length
      invariant forall k :: 0 <= k < i ==> a[k] == rows[k].(sn := Some(SnAt(rows, k)))
      invariant forall k :: i <= k < a.Length ==> a[k] == rows[k]
      invariant forall b :: Counter(counters, b) == CountIn(rows[..i], b)
    {
      var b := a[i].branch;
      CounterStep(counters, rows, i);
      counters := counters[b := Counter(counters, b) + 1];
      a[i] := a[i].(sn := Some(counters[b]));
    }
    assert rows[..a.Length] == rows;
  }

  /** Incrementing the counter of the next row's branch keeps every counter
      equal to the count of rows walked so far. */
  lemma CounterStep(counters: map<Database.BranchId, nat>, rows: seq<SnRow>, i: nat)
    requires i < |rows|
    requires forall b :: Counter(counters, b) == CountIn(rows[..i], b)
    ensures var next := counters[rows[i].branch := Counter(counters, rows[i].branch) + 1];
            forall b :: Counter(next, b) == CountIn(rows[..i + 1], b)
  {
    assert rows[..i + 1][..i] == rows[..i];
  }

  /** `populate_sn_reverse`: one bulk update clears every serial number. */
  method PopulateSnReverse(a: array<SnRow>)
    modifies a
    ensures forall i :: 0 <= i < a.Length ==> a[i] == old(a[i]).(sn := None)
  {
    forall i | 0 <= i < a.Length {
      a[i] := a[i].(sn := None);
    }
  }

  // ----- what the numbering achieves -------------------------------------------

  /** The rows of `rows` that belong to branch `b`, in order. */
  function OnlyBranch(rows: seq<SnRow>, b: Database.BranchId): seq<SnRow> {
    if rows == [] then []
    else OnlyBranch(rows[..|rows| - 1], b) + (if rows[|rows| - 1].branch == b then [rows[|rows| - 1]] else [])
  }

  /** The counter of a branch counts that branch's rows and nothing else. */
  lemma {:induction false} CountInOwnBranch(rows: seq<SnRow>, b: Database.BranchId)
    ensures CountIn(rows, b) == |OnlyBranch(rows, b)|
  {
    if rows != [] {
      CountInOwnBranch(rows[..|rows| - 1], b);
    }
  }

  /** A row's serial number is one more than the number of earlier rows of its
      own branch: rows of other branches never move it. */
  lemma SnCountsOwnBranchOnly(rows: seq<SnRow>, i: nat)
    requires i < |rows|
    ensures SnAt(rows, i) == |OnlyBranch(rows[..i], rows[i].branch)| + 1
  {
    CountInOwnBranch(rows[..i], rows[i].branch);
  }

  /** Counting over a longer prefix never gives less, and a later row of the
      same branch has been counted. */
  lemma {:induction false} CountInMonotone(rows: seq<SnRow>, i: nat, j: nat, b: Database.BranchId)
    requires i <= j <= |rows|
    ensures CountIn(rows[..i], b) <= CountIn(rows[..j], b)
    ensures i < j && rows[i].branch == b ==> CountIn(rows[..i], b) < CountIn(rows[..j], b)
    decreases j - i
  {
    if i < j {
      CountInMonotone(rows, i, j - 1, b);
      assert rows[..j][..j - 1] == rows[..j - 1];
      if rows[i].branch == b && i == j - 1 {
        assert rows[..j][j - 1] == rows[i];
      }
    }
  }

  /** Within a branch the serial numbers strictly increase in walk order, so
      `(branch, sn)` is unique; they lie in `1..k` for a branch of `k` rows. */
  lemma SnUniqueAndBounded(rows: seq<SnRow>, i: nat, j: nat)
    requires i < j < |rows| && rows[i].branch == rows[j].branch
    ensures SnAt(rows, i) < SnAt(rows, j)
    ensures 1 <= SnAt(rows, j) <= CountIn(rows, rows[j].branch)
  {
    CountInMonotone(rows, i, j, rows[i].branch);
    CountInMonotone(rows, j, |rows|, rows[j].branch);
    assert rows[..|rows|] == rows;
  }

  /** Every number from 1 to a branch's row count is used: there are no gaps. */
  lemma {:induction false} SnNoGaps(rows: seq<SnRow>, b: Database.BranchId, n: nat)
    requires 1 <= n <= CountIn(rows, b)
    ensures exists i :: 0 <= i < |rows| && rows[i].branch == b && SnAt(rows, i) == n
  {
    var last := |rows| - 1;
    var init := rows[..last];
    if n <= CountIn(init, b) {
      SnNoGaps(init, b, n);
      var i :| 0 <= i < |init| && init[i].branch == b && SnAt(init, i) == n;
      assert init[..i] == rows[..i];
      assert rows[i].branch == b && SnAt(rows, i) == n;
    } else {
      assert rows[last].branch == b && rows[..last] == init;
      assert SnAt(rows, last) == n;
    }
  }

  /** Reversing the migration after running it leaves every row as it was,
      but without a serial number. */
  lemma ReverseUndoesNumbering(rows: seq<SnRow>)
    ensures forall i :: 0 <= i < |rows| ==> Numbered(rows)[i].(sn := None) == rows[i].(sn := None)
  {
  }
}
