/** The dashboard page: the transaction list an analyst reviews, the status
    change the detail's buttons request, and the four counters on the stat
    cards. */
module DashboardPage {
  import opened DashboardTypes
  import DetailModal

  /** `handleStatusChange`: every entry with this id takes the new status;
      everything else stays as it was. */
  function StatusChange(txns: seq<DashTransaction>, txnId: string, newStatus: TransactionStatus): (r: seq<DashTransaction>)
    ensures |r| == |txns|
    ensures forall i :: 0 <= i < |txns| && txns[i].txnId == txnId ==> r[i] == txns[i].(status := newStatus)
    ensures forall i :: 0 <= i < |txns| && txns[i].txnId != txnId ==> r[i] == txns[i]
  {
    seq(|txns|, i requires 0 <= i < |txns| => if txns[i].txnId == txnId then txns[i].(status := newStatus) else txns[i])
  }

  /** A change only touches the status: ids, and so the order of the list
      by id, are kept. */
  lemma StatusChangeKeepsIds(txns: seq<DashTransaction>, txnId: string, newStatus: TransactionStatus)
    ensures forall i :: 0 <= i < |txns| ==> StatusChange(txns, txnId, newStatus)[i].txnId == txns[i].txnId
    ensures forall i :: 0 <= i < |txns| ==> StatusChange(txns, txnId, newStatus)[i].(status := txns[i].status) == txns[i]
  {
  }

  /** Repeating a change changes nothing more. */
  lemma StatusChangeIdempotent(txns: seq<DashTransaction>, txnId: string, newStatus: TransactionStatus)
    ensures StatusChange(StatusChange(txns, txnId, newStatus), txnId, newStatus) == StatusChange(txns, txnId, newStatus)
  {
  }

  /** Of two changes to the same id, the later one wins. */
  lemma StatusChangeLastWins(txns: seq<DashTransaction>, txnId: string, s1: TransactionStatus, s2: TransactionStatus)
    ensures StatusChange(StatusChange(txns, txnId, s1), txnId, s2) == StatusChange(txns, txnId, s2)
  {
  }

  /** Changes to different ids do not interfere. */
  lemma StatusChangesCommute(txns: seq<DashTransaction>, id1: string, s1: TransactionStatus, id2: string, s2: TransactionStatus)
    requires id1 != id2
    ensures StatusChange(StatusChange(txns, id1, s1), id2, s2) == StatusChange(StatusChange(txns, id2, s2), id1, s1)
  {
  }

  /** After a button's change, that button is disabled on every entry the
      change reached. */
  lemma ClickDisablesButton(txns: seq<DashTransaction>, i: nat, a: DetailModal.Action)
    requires i < |txns|
    ensures DetailModal.ActionDisabled(StatusChange(txns, txns[i].txnId, DetailModal.Target(a))[i], a)
  {
  }

  /** `filter(t => t.status === status).length`. */
  function Count(txns: seq<DashTransaction>, status: TransactionStatus): (n: nat)
    ensures n <= |txns|
  {
    if |txns| == 0 then 0
    else Count(txns[..|txns| - 1], status) + (if txns[|txns| - 1].status == status then 1 else 0)
  }

  /** A status is counted exactly when some entry has it. */
  lemma {:induction false} CountPositive(txns: seq<DashTransaction>, status: TransactionStatus)
    ensures Count(txns, status) > 0 <==> exists i :: 0 <= i < |txns| && txns[i].status == status
  {
    if |txns| > 0 {
      var init := txns[..|txns| - 1];
      CountPositive(init, status);
      if Count(init, status) > 0 {
        var i :| 0 <= i < |init| && init[i].status == status;
        assert txns[i].status == status;
      }
      if exists i :: 0 <= i < |txns| && txns[i].status == status {
        var i :| 0 <= i < |txns| && txns[i].status == status;
        if i < |init| {
          assert init[i].status == status;
        }
      }
    }
  }

  /** The four statuses partition the list. */
  lemma {:induction false} CountsPartition(txns: seq<DashTransaction>)
    ensures Count(txns, PENDING) + Count(txns, APPROVED) + Count(txns, FLAGGED) + Count(txns, BLOCKED) == |txns|
  {
    if |txns| > 0 {
      CountsPartition(txns[..|txns| - 1]);
    }
  }

  /** The stat cards' counters. */
  datatype Stats = Stats(total: nat, pending: nat, flagged: nat, blocked: nat)

  /** `stats`: the list's length and its pending, flagged and blocked counts;
      the three counted statuses never exceed the total, and what they
      leave out is exactly the approved entries. */
  function StatsOf(txns: seq<DashTransaction>): (s: Stats)
    ensures s.total == |txns|
    ensures s.pending + s.flagged + s.blocked + Count(txns, APPROVED) == s.total
    ensures s.pending + s.flagged + s.blocked <= s.total
  {
    CountsPartition(txns);
    Stats(|txns|, Count(txns, PENDING), Count(txns, FLAGGED), Count(txns, BLOCKED))
  }

  /** A change to status `t` never lowers the count of `t` and never
      raises the count of any other status. */
  lemma {:induction false} StatusChangeCounts(txns: seq<DashTransaction>, txnId: string, t: TransactionStatus, u: TransactionStatus)
    ensures Count(StatusChange(txns, txnId, t), t) >= Count(txns, t)
    ensures u != t ==> Count(StatusChange(txns, txnId, t), u) <= Count(txns, u)
  {
    if |txns| > 0 {
      var init := txns[..|txns| - 1];
      var r := StatusChange(txns, txnId, t);
      assert r[..|r| - 1] == StatusChange(init, txnId, t);
      StatusChangeCounts(init, txnId, t, u);
    }
  }
}
