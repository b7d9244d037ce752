/**
 What storing a receipt does, told from the receipts alone: which older ones go
 with it and which do not.
 */
module ReceiptEffects {
  import opened Ordering
  import opened Vectors
  import opened Collection
  import opened Receipts
  import opened ScanFairness

  const THIRTY_DAYS_MS: nat := 2_592_000_000

  /** The later receipts of the same device and class. */
  function LaterOf(receipts: map<nat, Receipt>, n: nat): set<nat>
    requires n in receipts
  {
    set m | m in receipts && m > n && SameClass(receipts[m], receipts[n])
  }

  /** With `receipt` stored, this one has at least ten thousand later ones of its class and is thirty days older. */
  predicate Due(receipts: map<nat, Receipt>, receipt: Receipt, n: nat) {
    && n in receipts && SameClass(receipts[n], receipt)
    && receipts[n].created + THIRTY_DAYS_MS <= receipt.created
    && |LaterOf(receipts, n)| + 1 >= 10_000
  }

  function DueBefore(receipts: map<nat, Receipt>, receipt: Receipt, n: nat): set<nat> {
    set m | m in receipts && m < n && Due(receipts, receipt, m)
  }

  // ----- The oldest of a selection -----------------------------------------------------------------

  function Lower(ids: set<nat>, n: nat): set<nat> {
    set m | m in ids && m < n
  }

  lemma LowerByPosition(ids: seq<nat>, i: nat)
    requires Ordered(ids) && i < |ids|
    ensures |Lower(Ids(ids), ids[i])| == i
  {
    forall m
      ensures m in Lower(Ids(ids), ids[i]) <==> m in Ids(ids[..i])
    {
      if m in Lower(Ids(ids), ids[i]) {
        var k :| 0 <= k < |ids| && ids[k] == m;
        assert k < i;
        assert ids[..i][k] == m;
      }
    }
    assert Lower(Ids(ids), ids[i]) == Ids(ids[..i]);
    SortedCount(ids[..i]);
  }

  /** The first 256 in order are those with fewer than 256 below them. */
  lemma FirstOf(ids: set<nat>, n: nat)
    ensures n in Prefix(Minors(Listing(IdKeys(ids))), 256) <==> n in ids && |Lower(ids, n)| < 256
  {
    var listed := Minors(Listing(IdKeys(ids)));
    ListedInOrder(ids);
    hide Listing, Minors;
    if n in ids {
      assert n in Ids(listed);
      var i :| 0 <= i < |listed| && listed[i] == n;
      LowerByPosition(listed, i);
      if i < 256 {
        assert Prefix(listed, 256)[i] == n;
      }
    }
  }

  // ----- What is prunable once a receipt is stored ----------------------------------------------------

  lemma SequencesOf(ledger: Ledger, device: DeviceId, class_: Class, n: nat)
    requires LedgerInv(ledger)
    ensures n in ClassSequences(ledger.retention, device, class_) <==>
              n in ledger.receipts && ledger.receipts[n].device == device && ClassOf(ledger.receipts[n].operation) == class_
  {
    if n in ledger.receipts {
      assert RetentionOf(n, ledger.receipts[n]) in ledger.retention;
    }
  }

  lemma NewerAreLater(ledger: Ledger, highest: nat, receipt: Receipt, n: nat)
    requires LedgerInv(ledger) && IsHighest(ledger.receipts, highest) && n in ledger.receipts && SameClass(ledger.receipts[n], receipt)
    ensures var sequences := ClassSequences(Inserted(ledger, highest + 1, receipt).retention, receipt.device, ClassOf(receipt.operation));
            |Newer(sequences, n)| == |LaterOf(ledger.receipts, n)| + 1
  {
    var device, class_ := receipt.device, ClassOf(receipt.operation);
    var sequences := ClassSequences(Inserted(ledger, highest + 1, receipt).retention, device, class_);
    InsertedSequences(ledger, highest + 1, receipt, device, class_);
    forall m
      ensures m in ClassSequences(ledger.retention, device, class_) <==> m in ledger.receipts && SameClass(ledger.receipts[m], receipt)
    {
      SequencesOf(ledger, device, class_, m);
    }
    hide LedgerInv, ClassSequences, Inserted;
    assert Newer(sequences, n) == LaterOf(ledger.receipts, n) + {highest + 1};
    assert highest + 1 !in LaterOf(ledger.receipts, n);
  }

  lemma PrunableIsDue(ledger: Ledger, highest: nat, receipt: Receipt, n: nat)
    requires LedgerInv(ledger) && IsHighest(ledger.receipts, highest) && KeyFree(ledger, receipt) && n <= highest
    ensures Prunable(Inserted(ledger, highest + 1, receipt), receipt.device, ClassOf(receipt.operation), receipt.created, n)
       <==> Due(ledger.receipts, receipt, n)
  {
    var device, class_ := receipt.device, ClassOf(receipt.operation);
    var next := Inserted(ledger, highest + 1, receipt);
    InsertKeepsInv(ledger, highest + 1, receipt);
    SequencesOf(next, device, class_, n);
    if n in ledger.receipts && SameClass(ledger.receipts[n], receipt) {
      NewerAreLater(ledger, highest, receipt, n);
      OldIsOld(next, n, device, class_, receipt.created);
    }
    hide LedgerInv, ClassSequences, Newer, LaterOf, OldEnough, KeyFree;
  }

  lemma OldIsOld(ledger: Ledger, n: nat, device: DeviceId, class_: Class, uptime: nat)
    requires LedgerInv(ledger) && n in ledger.receipts && ledger.receipts[n].device == device && ClassOf(ledger.receipts[n].operation) == class_
    ensures OldEnough(ledger.retention, device, class_, n, uptime) <==> ledger.receipts[n].created + THIRTY_DAYS_MS <= uptime
  {
    assert RetentionOf(n, ledger.receipts[n]) in ledger.retention;
  }

  lemma PrunableLower(ledger: Ledger, highest: nat, receipt: Receipt, n: nat)
    requires LedgerInv(ledger) && IsHighest(ledger.receipts, highest) && KeyFree(ledger, receipt) && n <= highest
    ensures var prunable := PrunableSet(Inserted(ledger, highest + 1, receipt), receipt.device, ClassOf(receipt.operation), receipt.created);
            && (n in prunable <==> Due(ledger.receipts, receipt, n))
            && Lower(prunable, n) == DueBefore(ledger.receipts, receipt, n)
  {
    var device, class_ := receipt.device, ClassOf(receipt.operation);
    var next := Inserted(ledger, highest + 1, receipt);
    PrunableIsListed(next, device, class_, receipt.created);
    var prunable := PrunableSet(next, device, class_, receipt.created);
    assert forall m :: m in prunable <==> Prunable(next, device, class_, receipt.created, m);
    hide Prunable, PrunableSet, LedgerInv, KeyFree, Inserted;
    PrunableIsDue(ledger, highest, receipt, n);
    forall m: nat
      ensures m in Lower(prunable, n) <==> m in DueBefore(ledger.receipts, receipt, n)
    {
      if m < n {
        PrunableIsDue(ledger, highest, receipt, m);
      }
    }
  }

  /** The selection of a pruning pass, once `receipt` is stored. */
  lemma SelectedIsDue(ledger: Ledger, highest: nat, receipt: Receipt, n: nat)
    requires LedgerInv(ledger) && IsHighest(ledger.receipts, highest) && KeyFree(ledger, receipt) && n <= highest
    ensures n in PruneSelection(Inserted(ledger, highest + 1, receipt), receipt.device, ClassOf(receipt.operation), receipt.created)
       <==> Due(ledger.receipts, receipt, n) && |DueBefore(ledger.receipts, receipt, n)| < 256
  {
    hide LedgerInv, KeyFree, IsHighest, Due, DueBefore, PrunableSet, Listing, Minors, Prefix;
    PrunableLower(ledger, highest, receipt, n);
    FirstOf(PrunableSet(Inserted(ledger, highest + 1, receipt), receipt.device, ClassOf(receipt.operation), receipt.created), n);
  }

  /**
   Storing a receipt removes an older one exactly when that one is of the same device and class, thirty days of
   uptime older, has ten thousand later ones, and is among the first 256 such; every other one stays as it is.
   */
  lemma StoringPrunesExactly(ledger: Ledger, receipt: Receipt, n: nat)
    requires LedgerInv(ledger) && KeyFree(ledger, receipt) && n in ledger.receipts
    ensures var l := WithReceipt(ledger, receipt);
            && (n !in l.receipts <==> Due(ledger.receipts, receipt, n) && |DueBefore(ledger.receipts, receipt, n)| < 256)
            && (n in l.receipts ==> l.receipts[n] == ledger.receipts[n])
  {
    var highest := HighestOf(ledger.receipts);
    var next := Inserted(ledger, highest + 1, receipt);
    hide LedgerInv, KeyFree, PruneSelection, Due, DueBefore;
    SelectedIsDue(ledger, highest, receipt, n);
    assert n <= highest && next.receipts[n] == ledger.receipts[n];
  }
}
