/**
 Idempotency receipts: lookup, insertion and bounded pruning of two tables that
 mirror each other.
 */
module Receipts {
  import opened Outcomes
  import opened Ordering
  import opened Vectors
  import opened Collection
  import opened Snapshots

  const RETAINED_RECEIPTS: nat := 10_000
  const RECEIPT_UPTIME_MS: nat := 30 * 24 * 60 * 60 * 1000
  const PRUNE_BATCH := 256

  datatype Operation = SyncOperation | EnvelopeOperation | RevocationOperation(target: DeviceId)

  datatype Class = SyncClass | OtherClass

  function ClassOf(operation: Operation): Class {
    if operation.SyncOperation? then SyncClass else OtherClass
  }

  datatype Receipt = Receipt(device: DeviceId, operation: Operation, request: nat, fingerprint: nat, response: nat, created: nat)

  datatype Retention = Retention(device: DeviceId, class_: Class, sequence: nat, created: nat)

  /** Receipts by sequence number, and the retention rows beside them. */
  datatype Ledger = Ledger(receipts: map<nat, Receipt>, retention: set<Retention>)

  const NO_RECEIPTS := Ledger(map[], {})

  function RetentionOf(sequence: nat, receipt: Receipt): Retention {
    Retention(receipt.device, ClassOf(receipt.operation), sequence, receipt.created)
  }

  predicate SameKey(receipt: Receipt, device: DeviceId, operation: Operation, request: nat) {
    receipt.device == device && receipt.operation == operation && receipt.request == request
  }

  /** The two tables are in bijection, and a request key names at most one receipt. */
  ghost predicate LedgerInv(ledger: Ledger) {
    && (forall n | n in ledger.receipts :: RetentionOf(n, ledger.receipts[n]) in ledger.retention)
    && (forall k | k in ledger.retention :: k.sequence in ledger.receipts && k == RetentionOf(k.sequence, ledger.receipts[k.sequence]))
    && (forall n, m | n in ledger.receipts && m in ledger.receipts
                      && SameKey(ledger.receipts[m], ledger.receipts[n].device, ledger.receipts[n].operation, ledger.receipts[n].request) :: n == m)
  }

  // ----- Lookup ------------------------------------------------------------------------

  /** The answer a stored receipt gives to a request that carries its key. */
  ghost predicate Answers(ledger: Ledger, device: DeviceId, operation: Operation, request: nat, fingerprint: nat, r: Result<Option<nat>>) {
    && (forall n | n in ledger.receipts && SameKey(ledger.receipts[n], device, operation, request) ::
          r == if ledger.receipts[n].fingerprint == fingerprint then Ok(Some(ledger.receipts[n].response)) else Err(RequestIdReused))
    && ((forall n | n in ledger.receipts :: !SameKey(ledger.receipts[n], device, operation, request)) ==> r == Ok(None))
  }

  /** A retained request replays its stored response; its key with another body is refused. */
  method LookupReceipt(ledger: Ledger, device: DeviceId, operation: Operation, request: nat, fingerprint: nat) returns (r: Result<Option<nat>>)
    requires LedgerInv(ledger)
    ensures Answers(ledger, device, operation, request, fingerprint, r)
  {
    if n :| n in ledger.receipts && SameKey(ledger.receipts[n], device, operation, request) {
      var receipt := ledger.receipts[n];
      if receipt.fingerprint != fingerprint {
        return Err(RequestIdReused);
      }
      return Ok(Some(receipt.response));
    }
    return Ok(None);
  }

  // ----- Sequence numbers -----------------------------------------------------------------

  ghost predicate IsHighest(receipts: map<nat, Receipt>, highest: nat) {
    (forall n | n in receipts :: n <= highest) && (receipts == map[] ==> highest == 0) && (receipts != map[] ==> highest in receipts)
  }

  method HighestSequence(receipts: map<nat, Receipt>) returns (highest: nat)
    ensures IsHighest(receipts, highest)
  {
    highest := 0;
    var rest := receipts.Keys;
    var found := false;
    while rest != {}
      invariant rest <= receipts.Keys
      invariant forall n | n in receipts && n !in rest :: n <= highest
      invariant !found ==> highest == 0 && rest == receipts.Keys
      invariant found ==> highest in receipts
      decreases |rest|
    {
      var n :| n in rest;
      if !found || n > highest {
        highest := n;
      }
      found := true;
      rest := rest - {n};
    }
    if receipts != map[] {
      var n :| n in receipts;
      assert found;
    }
  }

  // ----- Pruning ---------------------------------------------------------------------------

  function ClassSequences(retention: set<Retention>, device: DeviceId, class_: Class): set<nat> {
    set k | k in retention && k.device == device && k.class_ == class_ :: k.sequence
  }

  function Newer(sequences: set<nat>, n: nat): set<nat> {
    set m | m in sequences && m > n
  }

  predicate OldEnough(retention: set<Retention>, device: DeviceId, class_: Class, n: nat, uptime: nat) {
    exists k | k in retention ::
      k.device == device && k.class_ == class_ && k.sequence == n && k.created + RECEIPT_UPTIME_MS <= uptime
  }

  /** Prunable: at least ten thousand newer receipts of its class, and thirty days of uptime old. */
  predicate Prunable(ledger: Ledger, device: DeviceId, class_: Class, uptime: nat, n: nat) {
    var sequences := ClassSequences(ledger.retention, device, class_);
    n in sequences && |Newer(sequences, n)| >= RETAINED_RECEIPTS && OldEnough(ledger.retention, device, class_, n, uptime)
  }

  function PrunableSet(ledger: Ledger, device: DeviceId, class_: Class, uptime: nat): set<nat> {
    set n | n in ClassSequences(ledger.retention, device, class_) && Prunable(ledger, device, class_, uptime, n)
  }

  /** One pass removes the oldest prunable receipts, at most one batch of them, from both tables. */
  ghost function PruneSelection(ledger: Ledger, device: DeviceId, class_: Class, uptime: nat): seq<nat> {
    Prefix(Minors(Listing(IdKeys(PrunableSet(ledger, device, class_, uptime)))), PRUNE_BATCH)
  }

  function Without(ledger: Ledger, device: DeviceId, class_: Class, gone: seq<nat>): Ledger {
    Ledger(map n | n in ledger.receipts && n !in gone :: ledger.receipts[n],
           set k | k in ledger.retention && !(k.device == device && k.class_ == class_ && k.sequence in gone))
  }

  ghost function Pruned(ledger: Ledger, device: DeviceId, class_: Class, uptime: nat): Ledger {
    Without(ledger, device, class_, PruneSelection(ledger, device, class_, uptime))
  }

  // ----- The protected boundary -------------------------------------------------------------

  function Ids(ids: seq<nat>): set<nat> {
    set n | n in ids
  }

  predicate Ordered(ids: seq<nat>) {
    forall j, k | 0 <= j < k < |ids| :: ids[j] < ids[k]
  }

  lemma NothingNewer(ids: seq<nat>)
    requires Ordered(ids) && ids != []
    ensures Newer(Ids(ids), ids[|ids| - 1]) == {}
  {
    forall n | n in ids
      ensures n <= ids[|ids| - 1]
    {
      var k :| 0 <= k < |ids| && ids[k] == n;
    }
  }

  lemma NewerStep(ids: seq<nat>, i: nat)
    requires Ordered(ids) && i + 1 < |ids|
    ensures Newer(Ids(ids), ids[i]) == Newer(Ids(ids), ids[i + 1]) + {ids[i + 1]}
    ensures ids[i + 1] !in Newer(Ids(ids), ids[i + 1])
  {
    forall n
      ensures n in Newer(Ids(ids), ids[i]) <==> n in Newer(Ids(ids), ids[i + 1]) + {ids[i + 1]}
    {
      if n in ids {
        var k :| 0 <= k < |ids| && ids[k] == n;
        assert k <= i || k == i + 1 || k > i + 1;
      }
    }
  }

  /** In an increasing listing, position decides how many elements are newer. */
  lemma {:induction false} NewerByPosition(ids: seq<nat>, i: nat)
    requires Ordered(ids) && i < |ids|
    ensures |Newer(Ids(ids), ids[i])| == |ids| - 1 - i
    decreases |ids| - i
  {
    hide Ordered, Newer, Ids;
    if i == |ids| - 1 {
      NothingNewer(ids);
    } else {
      NewerByPosition(ids, i + 1);
      NewerStep(ids, i);
    }
  }

  lemma ListedInOrder(ids: set<nat>)
    ensures var listed := Minors(Listing(IdKeys(ids)));
            && Ids(listed) == ids && |listed| == |ids|
            && Ordered(listed)
  {
    var keys := IdKeys(ids);
    var listing := Listing(keys);
    var listed := Minors(listing);
    IdListing(ids);
    ListingIsOrdered(keys);
    forall i | 0 <= i < |listing|
      ensures listing[i].major == 0
    {
      assert listing[i] in Elements(listing);
    }
    forall j, k | 0 <= j < k < |listed|
      ensures listed[j] < listed[k]
    {
      assert KeyLess(listing[j], listing[k]);
    }
    forall n
      ensures n in Ids(listed) <==> n in ids
    {
      if n in ids {
        var i :| 0 <= i < |listing| && listing[i] == Key(0, n);
        assert listed[i] == n;
      }
    }
  }

  /** Below the ten-thousandth newest sequence lie exactly those with ten thousand newer ones. */
  lemma BoundaryIsExact(ids: set<nat>, n: nat)
    requires n in ids
    ensures var listed := Minors(Listing(IdKeys(ids)));
            |Newer(ids, n)| >= RETAINED_RECEIPTS <==> |listed| >= RETAINED_RECEIPTS && n < listed[|listed| - RETAINED_RECEIPTS]
  {
    var listed := Minors(Listing(IdKeys(ids)));
    ListedInOrder(ids);
    assert n in Ids(listed);
    var i :| 0 <= i < |listed| && listed[i] == n;
    NewerByPosition(listed, i);
  }

  function OldBelow(ledger: Ledger, device: DeviceId, class_: Class, boundary: nat, uptime: nat): set<nat> {
    set n | n in ClassSequences(ledger.retention, device, class_) && n < boundary && OldEnough(ledger.retention, device, class_, n, uptime)
  }

  lemma SelectionIsExact(ledger: Ledger, device: DeviceId, class_: Class, uptime: nat)
    ensures var listed := Minors(Listing(IdKeys(ClassSequences(ledger.retention, device, class_))));
            PrunableSet(ledger, device, class_, uptime) ==
            if |listed| < RETAINED_RECEIPTS then {} else OldBelow(ledger, device, class_, listed[|listed| - RETAINED_RECEIPTS], uptime)
    ensures uptime < RECEIPT_UPTIME_MS ==> PrunableSet(ledger, device, class_, uptime) == {}
  {
    var sequences := ClassSequences(ledger.retention, device, class_);
    var listed := Minors(Listing(IdKeys(sequences)));
    forall n | n in sequences
      ensures |Newer(sequences, n)| >= RETAINED_RECEIPTS <==> |listed| >= RETAINED_RECEIPTS && n < listed[|listed| - RETAINED_RECEIPTS]
    {
      BoundaryIsExact(sequences, n);
    }
    hide Newer, ClassSequences, Listing, OldEnough;
    if uptime < RECEIPT_UPTIME_MS {
      TooYoung(ledger.retention, device, class_, uptime);
    }
  }

  lemma TooYoung(retention: set<Retention>, device: DeviceId, class_: Class, uptime: nat)
    requires uptime < RECEIPT_UPTIME_MS
    ensures forall n :: !OldEnough(retention, device, class_, n, uptime)
  {
  }

  lemma NothingSelected()
    ensures Prefix(Minors(Listing(IdKeys({}))), PRUNE_BATCH) == []
  {
    assert IdKeys({}) == {};
  }

  lemma WithoutNone(ledger: Ledger, device: DeviceId, class_: Class)
    ensures Without(ledger, device, class_, []) == ledger
  {
    assert Without(ledger, device, class_, []).receipts == ledger.receipts;
  }

  lemma WithoutStep(ledger: Ledger, device: DeviceId, class_: Class, gone: seq<nat>, n: nat)
    ensures var l := Without(ledger, device, class_, gone);
            Without(ledger, device, class_, gone + [n])
            == Ledger(l.receipts - {n}, set k | k in l.retention && !(k.device == device && k.class_ == class_ && k.sequence == n))
  {
    var l := Without(ledger, device, class_, gone);
    assert Without(ledger, device, class_, gone + [n]).receipts == l.receipts - {n};
  }

  method PruneReceipts(ledger: Ledger, device: DeviceId, operation: Operation, uptime: nat) returns (l: Ledger)
    ensures l == Pruned(ledger, device, ClassOf(operation), uptime)
  {
    var class_ := ClassOf(operation);
    hide Without, OldBelow, ClassSequences, PrunableSet, Listing;
    SelectionIsExact(ledger, device, class_, uptime);
    NothingSelected();
    WithoutNone(ledger, device, class_);
    l := ledger;
    if uptime < RECEIPT_UPTIME_MS {
      return;
    }
    var ordered := OrderBy(IdKeys(ClassSequences(ledger.retention, device, class_)));
    var listed := Minors(ordered);
    if |listed| < RETAINED_RECEIPTS {
      return;
    }
    var boundary := listed[|listed| - RETAINED_RECEIPTS];
    var rows := OrderBy(IdKeys(OldBelow(ledger, device, class_, boundary, uptime)));
    var expired := Prefix(Minors(rows), PRUNE_BATCH);
    for i := 0 to |expired|
      invariant l == Without(ledger, device, class_, expired[..i])
    {
      var n := expired[i];
      assert expired[..i + 1] == expired[..i] + [n];
      WithoutStep(ledger, device, class_, expired[..i], n);
      l := l.(receipts := l.receipts - {n});
      l := l.(retention := set k | k in l.retention && !(k.device == device && k.class_ == class_ && k.sequence == n));
    }
    assert expired[..|expired|] == expired;
  }

  // ----- What pruning keeps -------------------------------------------------------------------

  lemma SelectionIsPrunable(ledger: Ledger, device: DeviceId, class_: Class, uptime: nat)
    ensures forall n | n in PruneSelection(ledger, device, class_, uptime) :: Prunable(ledger, device, class_, uptime, n)
    ensures |PruneSelection(ledger, device, class_, uptime)| <= PRUNE_BATCH
    ensures |PrunableSet(ledger, device, class_, uptime)| <= PRUNE_BATCH ==>
              forall n :: n in PruneSelection(ledger, device, class_, uptime) <==> Prunable(ledger, device, class_, uptime, n)
  {
    hide Prunable;
    var prunable := PrunableSet(ledger, device, class_, uptime);
    ListedInOrder(prunable);
    var listed := Minors(Listing(IdKeys(prunable)));
    assert forall n :: n in prunable ==> Prunable(ledger, device, class_, uptime, n);
    assert forall n :: Prunable(ledger, device, class_, uptime, n) ==> n in prunable by { PrunableIsListed(ledger, device, class_, uptime); }
    assert forall n :: n in listed <==> n in Ids(listed);
    var taken := PruneSelection(ledger, device, class_, uptime);
    assert forall n | n in taken :: n in listed;
  }

  lemma PrunableIsListed(ledger: Ledger, device: DeviceId, class_: Class, uptime: nat)
    ensures forall n :: Prunable(ledger, device, class_, uptime, n) ==> n in PrunableSet(ledger, device, class_, uptime)
  {
  }

  /** A pass keeps the tables in bijection, and touches only prunable receipts of one device and class. */
  lemma PruneKeepsInv(ledger: Ledger, device: DeviceId, class_: Class, uptime: nat)
    requires LedgerInv(ledger)
    ensures var l := Pruned(ledger, device, class_, uptime);
            && LedgerInv(l)
            && (forall n | n in l.receipts :: n in ledger.receipts && l.receipts[n] == ledger.receipts[n])
            && (forall n | n in ledger.receipts && n !in l.receipts ::
                  && ledger.receipts[n].device == device && ClassOf(ledger.receipts[n].operation) == class_
                  && ledger.receipts[n].created + RECEIPT_UPTIME_MS <= uptime
                  && |Newer(ClassSequences(ledger.retention, device, class_), n)| >= RETAINED_RECEIPTS)
  {
    var gone := PruneSelection(ledger, device, class_, uptime);
    SelectionIsPrunable(ledger, device, class_, uptime);
    hide PruneSelection;
    WithoutKeepsInv(ledger, device, class_, gone);
  }

  lemma WithoutKeepsInv(ledger: Ledger, device: DeviceId, class_: Class, gone: seq<nat>)
    requires LedgerInv(ledger) && forall n | n in gone :: n in ClassSequences(ledger.retention, device, class_)
    ensures LedgerInv(Without(ledger, device, class_, gone))
  {
  }

  /** The highest sequence number is never pruned, so it is never given out again. */
  lemma HighestSurvives(ledger: Ledger, device: DeviceId, class_: Class, uptime: nat, highest: nat)
    requires LedgerInv(ledger) && IsHighest(ledger.receipts, highest)
    ensures IsHighest(Pruned(ledger, device, class_, uptime).receipts, highest)
  {
    hide Pruned, LedgerInv, ClassSequences;
    PruneKeepsInv(ledger, device, class_, uptime);
    var l := Pruned(ledger, device, class_, uptime);
    SequencesAreReceipts(ledger, device, class_);
    assert Newer(ClassSequences(ledger.retention, device, class_), highest) == {};
  }

  lemma SequencesAreReceipts(ledger: Ledger, device: DeviceId, class_: Class)
    requires LedgerInv(ledger)
    ensures ClassSequences(ledger.retention, device, class_) <= ledger.receipts.Keys
  {
  }

  // ----- Storing a receipt ----------------------------------------------------------------------

  ghost predicate KeyFree(ledger: Ledger, receipt: Receipt) {
    forall n | n in ledger.receipts :: !SameKey(ledger.receipts[n], receipt.device, receipt.operation, receipt.request)
  }

  function Inserted(ledger: Ledger, sequence: nat, receipt: Receipt): Ledger {
    Ledger(ledger.receipts[sequence := receipt], ledger.retention + {RetentionOf(sequence, receipt)})
  }

  ghost function Appended(ledger: Ledger, sequence: nat, receipt: Receipt): Ledger {
    Pruned(Inserted(ledger, sequence, receipt), receipt.device, ClassOf(receipt.operation), receipt.created)
  }

  lemma InsertKeepsInv(ledger: Ledger, sequence: nat, receipt: Receipt)
    requires LedgerInv(ledger) && sequence !in ledger.receipts && KeyFree(ledger, receipt)
    ensures LedgerInv(Inserted(ledger, sequence, receipt))
  {
  }

  /** A new receipt gets the next sequence number, and is itself never pruned by its own insertion. */
  lemma AppendKeepsInv(ledger: Ledger, highest: nat, receipt: Receipt)
    requires LedgerInv(ledger) && IsHighest(ledger.receipts, highest) && KeyFree(ledger, receipt)
    ensures var l := Appended(ledger, highest + 1, receipt);
            && LedgerInv(l) && IsHighest(l.receipts, highest + 1)
            && highest + 1 in l.receipts && l.receipts[highest + 1] == receipt
            && (forall n | n in l.receipts && n <= highest :: n in ledger.receipts && l.receipts[n] == ledger.receipts[n])
  {
    hide LedgerInv, Pruned, KeyFree;
    InsertKeepsInv(ledger, highest + 1, receipt);
    var next := Inserted(ledger, highest + 1, receipt);
    PruneKeepsInv(next, receipt.device, ClassOf(receipt.operation), receipt.created);
    HighestSurvives(next, receipt.device, ClassOf(receipt.operation), receipt.created, highest + 1);
  }

  method StoreReceipt(ledger: Ledger, receipt: Receipt) returns (r: Result<Ledger>, sequence: nat)
    requires LedgerInv(ledger)
    ensures KeyFree(ledger, receipt) ==>
              && r.Ok? && r.value == Appended(ledger, sequence, receipt)
              && sequence > 0 && IsHighest(ledger.receipts, sequence - 1) && sequence in r.value.receipts
    ensures !KeyFree(ledger, receipt) ==> r == Err(InternalError)
  {
    hide LedgerInv, IsHighest, Pruned;
    if n :| n in ledger.receipts && SameKey(ledger.receipts[n], receipt.device, receipt.operation, receipt.request) {
      return Err(InternalError), 0;
    }
    var highest := HighestSequence(ledger.receipts);
    sequence := highest + 1;
    AppendKeepsInv(ledger, highest, receipt);
    var l := Inserted(ledger, sequence, receipt);
    l := PruneReceipts(l, receipt.device, receipt.operation, receipt.created);
    r := Ok(l);
  }

  // ----- Whole runs ---------------------------------------------------------------------------

  ghost function HighestOf(receipts: map<nat, Receipt>): (highest: nat)
    ensures IsHighest(receipts, highest)
  {
    HighestExists(receipts);
    var highest :| IsHighest(receipts, highest);
    highest
  }

  lemma {:induction false} HighestExists(receipts: map<nat, Receipt>)
    ensures exists highest :: IsHighest(receipts, highest)
    decreases |receipts|
  {
    if receipts == map[] {
      assert IsHighest(receipts, 0);
    } else {
      var n :| n in receipts;
      HighestExists(receipts - {n});
      var rest :| IsHighest(receipts - {n}, rest);
      assert forall m | m in receipts :: m == n || m in receipts - {n};
      assert IsHighest(receipts, if rest > n then rest else n);
    }
  }

  /** The ledger after one stored receipt. */
  ghost function WithReceipt(ledger: Ledger, receipt: Receipt): Ledger {
    Appended(ledger, HighestOf(ledger.receipts) + 1, receipt)
  }

  /** The ledger after a run of stored receipts, and the sequence numbers given out. */
  ghost function Issue(ledger: Ledger, run: seq<Receipt>): (Ledger, seq<nat>)
    decreases |run|
  {
    if run == [] then (ledger, [])
    else if !KeyFree(ledger, run[0]) then Issue(ledger, run[1..])
    else
      var (l, issued) := Issue(WithReceipt(ledger, run[0]), run[1..]);
      (l, [HighestOf(ledger.receipts) + 1] + issued)
  }

  /**
   Over every run of insertions and the prunings they cause, a new sequence number exceeds every
   number given out before, whether or not its receipt is still there; what is still there is unchanged.
   */
  lemma {:induction false} SequencesOnlyGrow(ledger: Ledger, run: seq<Receipt>)
    requires LedgerInv(ledger)
    ensures var (l, issued) := Issue(ledger, run);
            && LedgerInv(l)
            && (forall i | 0 <= i < |issued| :: issued[i] > HighestOf(ledger.receipts))
            && (forall i, j | 0 <= i < j < |issued| :: issued[i] < issued[j])
            && (forall n | n in l.receipts && n <= HighestOf(ledger.receipts) :: n in ledger.receipts && l.receipts[n] == ledger.receipts[n])
    decreases |run|
  {
    hide LedgerInv, Appended;
    if run != [] {
      if !KeyFree(ledger, run[0]) {
        SequencesOnlyGrow(ledger, run[1..]);
      } else {
        var highest := HighestOf(ledger.receipts);
        var next := Appended(ledger, highest + 1, run[0]);
        AppendKeepsInv(ledger, highest, run[0]);
        assert HighestOf(next.receipts) == highest + 1;
        SequencesOnlyGrow(next, run[1..]);
      }
    }
  }

  // ----- How long a receipt stays ----------------------------------------------------------------

  predicate SameClass(a: Receipt, b: Receipt) {
    a.device == b.device && ClassOf(a.operation) == ClassOf(b.operation)
  }

  /** The receipts of `n`'s device and class that are newer than it. */
  ghost function NewerOf(ledger: Ledger, n: nat): set<nat>
    requires n in ledger.receipts
  {
    Newer(ClassSequences(ledger.retention, ledger.receipts[n].device, ClassOf(ledger.receipts[n].operation)), n)
  }

  /** A receipt goes only for one of its own device and class, thirty days later, with ten thousand newer ones. */
  ghost predicate MayGo(ledger: Ledger, receipt: Receipt, n: nat)
    requires n in ledger.receipts
  {
    && SameClass(ledger.receipts[n], receipt)
    && ledger.receipts[n].created + RECEIPT_UPTIME_MS <= receipt.created
    && |NewerOf(ledger, n)| + 1 >= RETAINED_RECEIPTS
  }

  lemma InsertedSequences(ledger: Ledger, sequence: nat, receipt: Receipt, device: DeviceId, class_: Class)
    ensures ClassSequences(Inserted(ledger, sequence, receipt).retention, device, class_)
         == ClassSequences(ledger.retention, device, class_)
            + if receipt.device == device && ClassOf(receipt.operation) == class_ then {sequence} else {}
  {
    var kept := Inserted(ledger, sequence, receipt).retention;
    assert RetentionOf(sequence, receipt) in kept;
  }

  /** What storing a receipt keeps: every older one that may not go, and all that stay are unchanged. */
  lemma WithReceiptKeeps(ledger: Ledger, receipt: Receipt)
    requires LedgerInv(ledger) && KeyFree(ledger, receipt)
    ensures var l := WithReceipt(ledger, receipt);
            && LedgerInv(l) && HighestOf(l.receipts) == HighestOf(ledger.receipts) + 1
            && HighestOf(l.receipts) in l.receipts && l.receipts[HighestOf(l.receipts)] == receipt
            && (forall n | n in ledger.receipts && !MayGo(ledger, receipt, n) :: n in l.receipts && l.receipts[n] == ledger.receipts[n])
            && (forall n | n in l.receipts && n != HighestOf(l.receipts) :: n in ledger.receipts && l.receipts[n] == ledger.receipts[n])
  {
    hide LedgerInv, KeyFree, Appended, MayGo;
    var highest := HighestOf(ledger.receipts);
    var l := WithReceipt(ledger, receipt);
    AppendKeepsInv(ledger, highest, receipt);
    HighestIsUnique(l.receipts, highest + 1);
    hide IsHighest;
    forall n | n in ledger.receipts && !MayGo(ledger, receipt, n)
      ensures n in l.receipts && l.receipts[n] == ledger.receipts[n]
    {
      GoneMayGo(ledger, receipt, n);
    }
    forall n | n in l.receipts && n != highest + 1
      ensures n in ledger.receipts && l.receipts[n] == ledger.receipts[n]
    {
      SurvivorsUnchanged(ledger, receipt, n);
    }
  }

  lemma SurvivorsUnchanged(ledger: Ledger, receipt: Receipt, n: nat)
    requires LedgerInv(ledger) && KeyFree(ledger, receipt)
    requires n in WithReceipt(ledger, receipt).receipts && n != HighestOf(ledger.receipts) + 1
    ensures n in ledger.receipts && WithReceipt(ledger, receipt).receipts[n] == ledger.receipts[n]
  {
    hide LedgerInv, KeyFree, Pruned, ClassSequences, IsHighest;
    NextIsFree(ledger);
    InsertKeepsInv(ledger, HighestOf(ledger.receipts) + 1, receipt);
    PruneKeepsInv(Inserted(ledger, HighestOf(ledger.receipts) + 1, receipt), receipt.device, ClassOf(receipt.operation), receipt.created);
  }

  lemma NextIsFree(ledger: Ledger)
    ensures HighestOf(ledger.receipts) + 1 !in ledger.receipts
  {
  }

  lemma GoneMayGo(ledger: Ledger, receipt: Receipt, n: nat)
    requires LedgerInv(ledger) && KeyFree(ledger, receipt) && n in ledger.receipts
    ensures n in WithReceipt(ledger, receipt).receipts ==> WithReceipt(ledger, receipt).receipts[n] == ledger.receipts[n]
    ensures n !in WithReceipt(ledger, receipt).receipts ==> MayGo(ledger, receipt, n)
  {
    hide LedgerInv, KeyFree, Pruned, ClassSequences, IsHighest;
    var highest := HighestOf(ledger.receipts);
    var next := Inserted(ledger, highest + 1, receipt);
    var class_ := ClassOf(receipt.operation);
    NextIsFree(ledger);
    InsertKeepsInv(ledger, highest + 1, receipt);
    PruneKeepsInv(next, receipt.device, class_, receipt.created);
    InsertedSequences(ledger, highest + 1, receipt, receipt.device, class_);
    assert next.receipts[n] == ledger.receipts[n];
    OneMoreNewer(ClassSequences(ledger.retention, receipt.device, class_), highest + 1, n);
  }

  lemma HighestIsUnique(receipts: map<nat, Receipt>, highest: nat)
    requires IsHighest(receipts, highest) && receipts != map[]
    ensures HighestOf(receipts) == highest
  {
  }

  lemma OneMoreNewer(sequences: set<nat>, sequence: nat, n: nat)
    ensures |Newer(sequences + {sequence}, n)| <= |Newer(sequences, n)| + 1
    ensures |Newer(sequences, n)| <= |Newer(sequences + {sequence}, n)|
  {
    SubsetSize(Newer(sequences + {sequence}, n), Newer(sequences, n) + {sequence});
    SubsetSize(Newer(sequences, n), Newer(sequences + {sequence}, n));
  }

  /** How many receipts of a run belong to the device and class of `receipt`. */
  function CountOf(run: seq<Receipt>, receipt: Receipt): nat {
    if run == [] then 0 else (if SameClass(receipt, run[0]) then 1 else 0) + CountOf(run[1..], receipt)
  }

  /** Storing one receipt makes at most one more newer than `n`, and only of its own class. */
  lemma NewerGrows(ledger: Ledger, receipt: Receipt, n: nat)
    requires LedgerInv(ledger) && KeyFree(ledger, receipt) && n in ledger.receipts && n in WithReceipt(ledger, receipt).receipts
    requires WithReceipt(ledger, receipt).receipts[n] == ledger.receipts[n]
    ensures |NewerOf(WithReceipt(ledger, receipt), n)| <= |NewerOf(ledger, n)| + if SameClass(ledger.receipts[n], receipt) then 1 else 0
  {
    hide LedgerInv, KeyFree, Pruned, IsHighest;
    var device, class_ := ledger.receipts[n].device, ClassOf(ledger.receipts[n].operation);
    var highest := HighestOf(ledger.receipts);
    var next := Inserted(ledger, highest + 1, receipt);
    var l := WithReceipt(ledger, receipt);
    var before := ClassSequences(ledger.retention, device, class_);
    InsertedSequences(ledger, highest + 1, receipt, device, class_);
    PrunedSequences(next, receipt.device, ClassOf(receipt.operation), receipt.created, device, class_);
    hide ClassSequences;
    OneMoreNewer(before, highest + 1, n);
    SubsetSize(Newer(ClassSequences(l.retention, device, class_), n), Newer(ClassSequences(next.retention, device, class_), n));
    assert before + {} == before;
  }

  lemma PrunedSequences(ledger: Ledger, device: DeviceId, class_: Class, uptime: nat, d: DeviceId, c: Class)
    ensures ClassSequences(Pruned(ledger, device, class_, uptime).retention, d, c) <= ClassSequences(ledger.retention, d, c)
  {
    hide PruneSelection;
  }

  /**
   Over every run of stored receipts, a receipt stays as it is while the run is less than thirty days
   of uptime away from it, and while fewer than ten thousand newer ones of its class are stored.
   */
  lemma {:induction false} ReceiptsOutlast(ledger: Ledger, run: seq<Receipt>, n: nat)
    requires LedgerInv(ledger) && n in ledger.receipts
    requires (forall k | 0 <= k < |run| :: run[k].created < ledger.receipts[n].created + RECEIPT_UPTIME_MS)
             || |NewerOf(ledger, n)| + CountOf(run, ledger.receipts[n]) < RETAINED_RECEIPTS
    ensures var (l, issued) := Issue(ledger, run); n in l.receipts && l.receipts[n] == ledger.receipts[n]
    decreases |run|
  {
    hide LedgerInv, WithReceipt, NewerOf, KeyFree;
    if run != [] {
      if KeyFree(ledger, run[0]) {
        var l := WithReceipt(ledger, run[0]);
        WithReceiptKeeps(ledger, run[0]);
        assert !MayGo(ledger, run[0], n);
        NewerGrows(ledger, run[0], n);
        ReceiptsOutlast(l, run[1..], n);
      } else {
        ReceiptsOutlast(ledger, run[1..], n);
      }
    }
  }

  /**
   A stored request replays: after any further run of receipts under which its own may not go, its
   key and body are answered with the stored response, and its key with another body is refused.
   */
  lemma StoredRequestReplays(ledger: Ledger, receipt: Receipt, run: seq<Receipt>, fingerprint: nat, r: Result<Option<nat>>)
    requires LedgerInv(ledger) && KeyFree(ledger, receipt)
    requires (forall k | 0 <= k < |run| :: run[k].created < receipt.created + RECEIPT_UPTIME_MS) || CountOf(run, receipt) < RETAINED_RECEIPTS
    requires var (l, issued) := Issue(WithReceipt(ledger, receipt), run); Answers(l, receipt.device, receipt.operation, receipt.request, fingerprint, r)
    ensures r == if receipt.fingerprint == fingerprint then Ok(Some(receipt.response)) else Err(RequestIdReused)
  {
    hide LedgerInv, WithReceipt, KeyFree, Issue;
    WithReceiptKeeps(ledger, receipt);
    var first := WithReceipt(ledger, receipt);
    var n := HighestOf(first.receipts);
    NothingNewerThanHighest(first, n);
    ReceiptsOutlast(first, run, n);
  }

  lemma NothingNewerThanHighest(ledger: Ledger, n: nat)
    requires LedgerInv(ledger) && n in ledger.receipts && n == HighestOf(ledger.receipts)
    ensures |NewerOf(ledger, n)| == 0
  {
    var device, class_ := ledger.receipts[n].device, ClassOf(ledger.receipts[n].operation);
    SequencesAreReceipts(ledger, device, class_);
    hide LedgerInv, ClassSequences;
    assert NewerOf(ledger, n) == {};
  }
}
