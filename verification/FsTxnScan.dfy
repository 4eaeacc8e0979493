/**
 * The recovery method meets the crash theorems: what RecoverTxnsForRoot performs over a whole namespace is
 * safe for a transaction at every primitive, and final for it once its entry has been visited.
 */
module FsTxnScan {
  import opened Options
  import opened Disk
  import opened FsTxn
  import opened FsTxnSafety
  import opened FsTxnEngine

  /** The entries of other transactions are recovered without writing a path of this one. */
  ghost predicate OthersAreForeign(
    x: Batch, kinds: Registry, scan: Scan, pf: Platform, s: State, listing: Listing)
  {
    forall n | 0 <= n < |listing.ids| && listing.ids[n] != x.journal.id ::
      VisitAt(kinds, scan, pf, s, listing, n).Ok? ==>
        Foreign(x, VisitAt(kinds, scan, pf, s, listing, n).value.ops)
  }

  lemma {:induction false} ScanSettles(
    pf: Platform, x: Batch, late: bool, kinds: Registry, scan: Scan, s: State, listing: Listing, n: nat)
    requires WellFormed(x) && Contract(pf, x) && Seeks(x, kinds, scan) && Safe(x, late, s)
    requires n <= |listing.ids| && Inside(x, listing.removal(x.journal.id))
    requires OthersAreForeign(x, kinds, scan, pf, s, listing)
    ensures var o := ScanPrefix(kinds, scan, pf, s, listing, n);
            && Guards(pf, x, late, s, o.ops)
            && (o.error.None? && x.journal.id in listing.ids[..n] ==> Done(x, late, Run(pf, s, o.ops)))
  {
    hide *;
    if n == 0 {
      NoScript(pf, x, late, s);
      ScanStep(kinds, scan, pf, s, listing, n);
    } else {
      ScanSettles(pf, x, late, kinds, scan, s, listing, n - 1);
      assert listing.ids[..n] == listing.ids[..n - 1] + [listing.ids[n - 1]];
      ScanStep(kinds, scan, pf, s, listing, n);
      var p := ScanPrefix(kinds, scan, pf, s, listing, n - 1);
      var visit := VisitAt(kinds, scan, pf, s, listing, n - 1);
      if p.error.None? && visit.Ok? {
        GuardsEnd(pf, x, late, s, p.ops);
        VisitSettles(pf, x, late, kinds, scan, s, listing, n - 1);
        GuardsAppend(pf, x, late, s, p.ops, visit.value.ops);
      }
    }
  }

  lemma GuardsEnd(pf: Platform, x: Batch, late: bool, s: State, ops: seq<Op>)
    requires Guards(pf, x, late, s, ops)
    ensures Safe(x, late, Run(pf, s, ops))
  {
    hide Safe;
    assert ops[..|ops|] == ops;
  }

  lemma NoScript(pf: Platform, x: Batch, late: bool, s: State)
    requires Safe(x, late, s)
    ensures Guards(pf, x, late, s, [])
  {
  }

  lemma VisitSettles(
    pf: Platform, x: Batch, late: bool, kinds: Registry, scan: Scan, s: State, listing: Listing, n: nat)
    requires WellFormed(x) && Contract(pf, x) && Seeks(x, kinds, scan)
    requires n < |listing.ids| && Inside(x, listing.removal(x.journal.id))
    requires OthersAreForeign(x, kinds, scan, pf, s, listing)
    requires VisitAt(kinds, scan, pf, s, listing, n).Ok?
    requires Safe(x, late, Run(pf, s, ScanPrefix(kinds, scan, pf, s, listing, n).ops))
    ensures var s' := Run(pf, s, ScanPrefix(kinds, scan, pf, s, listing, n).ops);
            var ops := VisitAt(kinds, scan, pf, s, listing, n).value.ops;
            && Guards(pf, x, late, s', ops)
            && (listing.ids[n] == x.journal.id || Done(x, late, s') ==> Done(x, late, Run(pf, s', ops)))
  {
    hide Exec, Safe, Done, Recover, Seeks, WellFormed, Foreign, Run;
    var s' := Run(pf, s, ScanPrefix(kinds, scan, pf, s, listing, n).ops);
    var id := listing.ids[n];
    if id == x.journal.id {
      var _ := RecoverSettles(pf, x, late, kinds, scan, s', Stale(listing, id), listing.removal(id));
    } else {
      ForeignKeepsSafe(pf, x, late, s', VisitAt(kinds, scan, pf, s, listing, n).value.ops);
    }
  }
}
