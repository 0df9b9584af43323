/** `sync_purchases` of the card-statement script: one ledger per card and
    month, its receipts converted to PDF, both mirrored to the drive. */
module PurchaseSync {
  import opened Values
  import opened Naming
  import opened Partition
  import opened Ledger
  import opened Schemas
  import opened Attachments
  import opened Mirror
  import opened SyncSteps

  /** Purchases are grouped by card and by the month of `created_date_time`. */
  const Cards: Grouping := Grouping("cardUsed", "created_date_time")

  const LedgerRoot: LedgerDir := "exports/Einkäufe/"

  /** `Einkauf_{card}_{period}.xlsx`, with the card's spaces replaced by `_`. */
  function LedgerName(card: string, period: string): string
  {
    "Einkauf_" + Underscored(card) + "_" + period + ".xlsx"
  }

  /** The ledger's local path, `exports/Einkäufe/{card}/{period}/{name}`. */
  function LedgerPath(card: string, period: string): (p: string)
    ensures Under(LedgerRoot, p)
    ensures '/' !in card && '/' !in period ==> LastSegment(p) == LedgerName(card, period)
  {
    var dir := LedgerRoot + Underscored(card) + "/" + period;
    var p := Join(dir, LedgerName(card, period));
    assert p == LedgerRoot + (Underscored(card) + "/" + period + "/" + LedgerName(card, period));
    if '/' !in card && '/' !in period then
      assert '/' !in Underscored(card);
      assert '/' !in LedgerName(card, period);
      LastSegmentOfJoin(dir, LedgerName(card, period));
      p
    else p
  }

  /** The directory of the group's receipts, under the attachment root. */
  function ReceiptsDir(card: string, period: string): (d: string)
    ensures Under(AttachmentRoot, d)
  {
    var d := "exports/Belege/Einkäufe/" + period + "/Belege_" + Underscored(card) + "_" + period;
    assert d == AttachmentRoot + ("Einkäufe/" + period + "/Belege_" + Underscored(card) + "_" + period);
    d
  }

  /** The drive folder of a card's receipts for one month. */
  function ReceiptsFolderName(card: string, period: string): string
  {
    "Belege_" + Underscored(card) + "_" + period
  }

  /** The group's ledger: the file at its path merged with the group's rows. */
  function Statement(local: map<string, Blob>, card: string, period: string, group: seq<Record>): Blob
  {
    LedgerSheet(Purchases, PurchasesHeader(card, period), Lookup(local, LedgerPath(card, period)),
                Rows(PurchaseColumns, group), true)
  }

  /** The state after a group whose folders exist: the ledger written and
      uploaded to the month folder, then the receipts up to the first row
      that raises. A missing `receiptPath` column raises after the upload. */
  function Processed(s: State, frame: seq<Record>, monthFolder: nat, receiptsFolder: nat, card: string, period: string,
                     group: seq<Record>, fetch: string -> Option<Bytes>, convert: Bytes -> Option<Bytes>): (r: State)
    ensures Lookup(r.local, LedgerPath(card, period)) == Some(Statement(s.local, card, period, group))
    ensures forall p :: Under(LedgerRoot, p) && p != LedgerPath(card, period) ==> Lookup(r.local, p) == Lookup(s.local, p)
    ensures r.folders == s.folders && s.remote <= r.remote
    ensures FileExists(r.remote, LastSegment(LedgerPath(card, period)), monthFolder)
  {
    var path := LedgerPath(card, period);
    var filed := Filed(s, Purchases, PurchasesHeader(card, period), path, Rows(PurchaseColumns, group), monthFolder);
    if group != [] && !HasColumn(frame, "receiptPath") then filed
    else
      var r := Receipts(filed, UntilCrash(group, "receiptPath", "itemName"), "itemName", ReceiptsDir(card, period),
                        receiptsFolder, fetch, convert);
      LedgersUntouched(LedgerRoot, filed.local, r.local);
      FileExistsGrows(filed.remote, r.remote, LastSegment(path), monthFolder);
      r
  }

  method LedgerAndReceipts(frame: seq<Record>, drive: Drive, disk: Disk,
                           monthFolder: nat, receiptsFolder: nat, card: string, period: string, group: seq<Record>,
                           fetch: string -> Option<Bytes>, convert: Bytes -> Option<Bytes>)
    returns (crashed: bool)
    requires drive.Valid()
    modifies drive, disk
    ensures drive.Valid()
    ensures StateOf(disk, drive) ==
              Processed(old(StateOf(disk, drive)), frame, monthFolder, receiptsFolder, card, period, group, fetch, convert)
    ensures crashed <==> (group != [] && !HasColumn(frame, "receiptPath")) || SlugCrash(group, "receiptPath", "itemName")
  {
    FileLedger(disk, drive, Purchases, PurchasesHeader(card, period), LedgerPath(card, period),
               Rows(PurchaseColumns, group), monthFolder);
    if group != [] && !HasColumn(frame, "receiptPath") {
      return true;
    }
    crashed := UploadReceipts(disk, drive, group, "itemName", ReceiptsDir(card, period), receiptsFolder, fetch, convert);
  }

  /** A group raises: its card is not text (`.replace` on it fails), a
      selected column is missing, the `receiptPath` column is missing, or a
      receipt's item name is not text. */
  predicate GroupCrash(frame: seq<Record>, card: Cell, group: seq<Record>)
  {
    !card.Text? || !Selectable(frame, PurchaseColumns) || (group != [] && !HasColumn(frame, "receiptPath")) ||
    SlugCrash(group, "receiptPath", "itemName")
  }

  /** The state after one iteration of the group loop: the folders, then
      (when every selected column exists) the ledger and the receipts. */
  function GroupSynced(s: State, frame: seq<Record>, statements: nat, receipts: nat, card: Cell, period: string,
                       group: seq<Record>, fetch: string -> Option<Bytes>, convert: Bytes -> Option<Bytes>): (r: State)
    ensures s.folders <= r.folders && s.remote <= r.remote
    ensures forall p :: Under(LedgerRoot, p) && p != LedgerPath(CellText(card), period) ==>
              Lookup(r.local, p) == Lookup(s.local, p)
    ensures !card.Text? || !Selectable(frame, PurchaseColumns) ==> r.local == s.local && r.remote == s.remote
    ensures card.Text? && Selectable(frame, PurchaseColumns) ==>
              Lookup(r.local, LedgerPath(CellText(card), period)) == Some(Statement(s.local, CellText(card), period, group))
  {
    if !card.Text? then s
    else
      var c := CellText(card);
      var (monthFolder, receiptsFolder, folders) :=
        GroupFolderIds(s.folders, statements, receipts, Underscored(c), period, ReceiptsFolderName(c, period));
      var placed := s.(folders := folders);
      if !Selectable(frame, PurchaseColumns) then placed
      else Processed(placed, frame, monthFolder, receiptsFolder, c, period, group, fetch, convert)
  }

  method SyncGroup(frame: seq<Record>, drive: Drive, disk: Disk, statements: nat, receipts: nat,
                   card: Cell, period: string, group: seq<Record>,
                   fetch: string -> Option<Bytes>, convert: Bytes -> Option<Bytes>)
    returns (crashed: bool)
    requires drive.Valid()
    modifies drive, disk
    ensures drive.Valid()
    ensures StateOf(disk, drive) ==
              GroupSynced(old(StateOf(disk, drive)), frame, statements, receipts, card, period, group, fetch, convert)
    ensures crashed <==> GroupCrash(frame, card, group)
  {
    if !card.Text? {
      return true;
    }
    var c := CellText(card);
    var monthFolder, receiptsFolder :=
      GroupFolders(drive, statements, receipts, Underscored(c), period, ReceiptsFolderName(c, period));
    if !Selectable(frame, PurchaseColumns) {
      return true;
    }
    crashed := LedgerAndReceipts(frame, drive, disk, monthFolder, receiptsFolder, c, period, group, fetch, convert);
  }

  /** A group that does not raise leaves its own ledger balanced and every
      other ledger as it was. */
  lemma GroupBalanced(s: State, records: seq<Record>, statements: nat, receipts: nat, k: LedgerKey, q: string,
                      fetch: string -> Option<Bytes>, convert: Bytes -> Option<Bytes>)
    requires !GroupCrash(records, k.group, Group(Cards, records, k)) && Under(LedgerRoot, q)
    requires q != LedgerPath(CellText(k.group), k.period) ==> Balanced(Purchases, Lookup(s.local, q))
    ensures Balanced(Purchases, Lookup(GroupSynced(s, records, statements, receipts, k.group, k.period,
                                                   Group(Cards, records, k), fetch, convert).local, q))
  {
    var r := GroupSynced(s, records, statements, receipts, k.group, k.period, Group(Cards, records, k), fetch, convert);
    if q == LedgerPath(CellText(k.group), k.period) {
      assert Lookup(r.local, q) == Some(Statement(s.local, CellText(k.group), k.period, Group(Cards, records, k)));
    } else {
      assert Lookup(r.local, q) == Lookup(s.local, q);
    }
  }

  /** One iteration of the group loop, as a step of the loop over the keys. */
  function Step(records: seq<Record>, statements: nat, receipts: nat, fetch: string -> Option<Bytes>,
                convert: Bytes -> Option<Bytes>): (State, LedgerKey) -> State
  {
    (t: State, k: LedgerKey) =>
      GroupSynced(t, records, statements, receipts, k.group, k.period, Group(Cards, records, k), fetch, convert)
  }

  /** Whether the group of a key raises. */
  function Raises(records: seq<Record>): LedgerKey -> bool
  {
    (k: LedgerKey) => GroupCrash(records, k.group, Group(Cards, records, k))
  }

  /** The ledger path of a key. */
  function KeyPath(k: LedgerKey): (p: string)
    ensures Under(LedgerRoot, p)
  {
    LedgerPath(CellText(k.group), k.period)
  }

  /** Every group keeps the ledgers apart and balances its own when it
      does not raise. */
  lemma StepKeepsLedgers(records: seq<Record>, statements: nat, receipts: nat, fetch: string -> Option<Bytes>,
                         convert: Bytes -> Option<Bytes>)
    ensures KeepsLedgers(Purchases, LedgerRoot, Step(records, statements, receipts, fetch, convert), Raises(records),
                         Local, KeyPath)
  {
    forall t: State, k: LedgerKey | !GroupCrash(records, k.group, Group(Cards, records, k))
      ensures Balanced(Purchases, Lookup(Step(records, statements, receipts, fetch, convert)(t, k).local, KeyPath(k)))
    {
      GroupBalanced(t, records, statements, receipts, k, KeyPath(k), fetch, convert);
    }
  }

  /** The group loop over the keys in order, up to and including the first
      group that raises; false when one raised. */
  method SyncKeys(records: seq<Record>, keys: seq<LedgerKey>, drive: Drive, disk: Disk, statements: nat, receipts: nat,
                  fetch: string -> Option<Bytes>, convert: Bytes -> Option<Bytes>)
    returns (completed: bool)
    requires drive.Valid()
    modifies drive, disk
    ensures drive.Valid()
    ensures StateOf(disk, drive) ==
              Loop(old(StateOf(disk, drive)), keys, Step(records, statements, receipts, fetch, convert), Raises(records))
    ensures completed <==> Completes(keys, Raises(records))
  {
    ghost var step, raises := Step(records, statements, receipts, fetch, convert), Raises(records);
    ghost var final := Loop(StateOf(disk, drive), keys, step, raises);
    var i := 0;
    while i < |keys|
      invariant 0 <= i <= |keys| && drive.Valid()
      invariant Loop(StateOf(disk, drive), keys[i..], step, raises) == final
      invariant Completes(keys, raises) == Completes(keys[i..], raises)
    {
      var k := keys[i];
      assert keys[i..][1..] == keys[i + 1..];
      var crashed := SyncGroup(records, drive, disk, statements, receipts, k.group, k.period,
                               Group(Cards, records, k), fetch, convert);
      if crashed {
        return false;
      }
      i := i + 1;
    }
    return true;
  }

  /** What `sync_purchases` ends with. */
  function Outcome(records: seq<Record>): RunOutcome
  {
    var columns := Columns(records);
    if records == [] || columns == {} then NoData
    else if "created_date_time" !in columns || "cardUsed" !in columns then Crashed
    else if exists k :: k in Keys(Cards, records) && GroupCrash(records, k.group, Group(Cards, records, k)) then Crashed
    else Completed
  }

  /** The state after `sync_purchases`: nothing for an empty fetch or a
      missing timestamp column; the top-level folders, and then the groups
      up to the first that raises. */
  function Run(s: State, records: seq<Record>, fetch: string -> Option<Bytes>, convert: Bytes -> Option<Bytes>): State
  {
    var columns := Columns(records);
    if records == [] || columns == {} || "created_date_time" !in columns then s
    else
      var (statements, receipts, folders) := Roots(s.folders, "Einkäufe");
      var rooted := s.(folders := folders);
      if "cardUsed" !in columns then rooted
      else Loop(rooted, Keys(Cards, records), Step(records, statements, receipts, fetch, convert), Raises(records))
  }

  /** The loop over a frame's keys completes exactly when none of its
      groups raises. */
  lemma KeysComplete(records: seq<Record>)
    ensures Completes(Keys(Cards, records), Raises(records)) <==>
              forall k :: k in Keys(Cards, records) ==> !GroupCrash(records, k.group, Group(Cards, records, k))
  {
    var keys := Keys(Cards, records);
    CompletesIff(keys, Raises(records));
    if Completes(keys, Raises(records)) {
      forall k | k in keys ensures !GroupCrash(records, k.group, Group(Cards, records, k)) {
        var j :| 0 <= j < |keys| && keys[j] == k;
        assert !Raises(records)(keys[j]);
      }
    } else {
      var j :| 0 <= j < |keys| && Raises(records)(keys[j]);
      assert keys[j] in keys;
    }
  }

  /** A run that completes leaves every group's ledger balanced. */
  lemma RunBalanced(s: State, records: seq<Record>, fetch: string -> Option<Bytes>, convert: Bytes -> Option<Bytes>)
    requires Outcome(records) == Completed
    ensures forall k :: k in Keys(Cards, records) ==>
              Balanced(Purchases, Lookup(Run(s, records, fetch, convert).local, LedgerPath(CellText(k.group), k.period)))
  {
    var (statements, receipts, folders) := Roots(s.folders, "Einkäufe");
    var keys := Keys(Cards, records);
    var rooted := s.(folders := folders);
    var step, raises := Step(records, statements, receipts, fetch, convert), Raises(records);
    KeysComplete(records);
    StepKeepsLedgers(records, statements, receipts, fetch, convert);
    forall k | k in keys
      ensures Balanced(Purchases, Lookup(Run(s, records, fetch, convert).local, LedgerPath(CellText(k.group), k.period)))
    {
      var j :| 0 <= j < |keys| && keys[j] == k;
      LoopBalanced(Purchases, LedgerRoot, rooted, keys, step, raises, Local, KeyPath, j);
    }
  }

  /** `sync_purchases`: an empty fetch or an empty frame ends the run before
      any drive call; a missing timestamp or card column raises; otherwise
      every (card, period) group gets its ledger and receipts. */
  method SyncPurchases(records: seq<Record>, drive: Drive, disk: Disk,
                       fetch: string -> Option<Bytes>, convert: Bytes -> Option<Bytes>)
    returns (outcome: RunOutcome)
    requires drive.Valid()
    modifies drive, disk
    ensures drive.Valid()
    ensures outcome == Outcome(records)
    ensures StateOf(disk, drive) == Run(old(StateOf(disk, drive)), records, fetch, convert)
    ensures outcome == Completed ==> forall k :: k in Keys(Cards, records) ==> k.group.Text?
    ensures outcome == Completed ==>
              forall k :: k in Keys(Cards, records) ==>
                Balanced(Purchases, Lookup(disk.files, LedgerPath(CellText(k.group), k.period)))
  {
    var columns := Columns(records);
    if records == [] || columns == {} {
      return NoData;
    }
    if "created_date_time" !in columns {
      return Crashed;
    }
    var statements, receipts := RootFolders(drive, "Einkäufe");
    if "cardUsed" !in columns {
      return Crashed;
    }
    var keys := Keys(Cards, records);
    var completed := SyncKeys(records, keys, drive, disk, statements, receipts, fetch, convert);
    KeysComplete(records);
    if completed {
      RunBalanced(old(StateOf(disk, drive)), records, fetch, convert);
    }
    return if completed then Completed else Crashed;
  }
}
