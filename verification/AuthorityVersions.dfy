/** What the update classifier means for the generations the pointer went through. */
module AuthorityVersions {
  import opened AuthorityUpdate
  import opened Wrappers
  import G = AuthorityGenerations

  /** The receipt with a given authority snapshot. */
  const RECEIPT_OF: nat -> Receipt

  /** A step is recognized only when some lane accepts it. */
  ghost predicate ClassifierDecides() {
    forall x, y :: G.RECOGNIZED(x, y) ==> Classified(RECEIPT_OF(x), RECEIPT_OF(y))
  }

  ghost function ReceiptAt(h: seq<G.Pointer>, i: nat): Receipt
    requires i < |h|
  {
    RECEIPT_OF(h[i].sha.receiptSnapshot)
  }

  ghost predicate OnAutomaticLane(s: G.Store, h: seq<G.Pointer>, i: nat)
    requires i < |h|
  {
    var begin := Get(s.begins, h[i].transactionId);
    begin.Some? && begin.value.Whole? && begin.value.content.lane == G.Automatic
  }

  /** In every state of every run, over any stretch of generations promoted by
      automatic lanes, neither the app version nor the primary-runtime version of
      the current authority decreases. */
  lemma PromotedVersionsNeverDecrease(s: G.Store, h: seq<G.Pointer>, from: nat, to: nat, a: nat, b: nat)
    requires G.HistorySound(s, h) && ClassifierDecides()
    requires from <= a <= b <= to < |h| && Valid(ReceiptAt(h, from))
    requires forall i :: from < i <= to ==> OnAutomaticLane(s, h, i)
    ensures NotOlder(ReceiptAt(h, b).app.version, ReceiptAt(h, a).app.version)
    ensures NotOlder(ReceiptAt(h, b).primary.version, ReceiptAt(h, a).primary.version)
  {
    hide Valid, NotOlder, Classified;
    var receipts := seq(to - from + 1, i requires 0 <= i <= to - from => ReceiptAt(h, from + i));
    forall i | 0 <= i < |receipts| - 1 ensures Classified(receipts[i], receipts[i + 1]) {
      var k := from + i + 1;
      assert OnAutomaticLane(s, h, k);
      G.HistoryAt(s, h, k);
      assert G.RECOGNIZED(h[k - 1].sha.receiptSnapshot, h[k].sha.receiptSnapshot);
      assert receipts[i] == ReceiptAt(h, k - 1) && receipts[i + 1] == ReceiptAt(h, k);
    }
    VersionsNeverDecrease(receipts, a - from, b - from);
  }
}
