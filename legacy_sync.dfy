/** The earlier purchases script: one ledger per card and month of `date`,
    rewritten from this run's records alone, and the receipts downloaded as
    they are stored. It talks to no drive. */
module LegacySync {
  import opened Values
  import opened Naming
  import opened Partition
  import opened Ledger
  import opened Schemas
  import opened Attachments
  import opened SyncSteps
  import PurchaseSync

  /** Purchases are grouped by card and by the month of `date`. */
  const Dates: Grouping := Grouping("cardUsed", "date")

  /** The earlier script writes the ledger at the path the later one merges into. */
  function LedgerPath(card: string, period: string): (p: string)
    ensures Under(PurchaseSync.LedgerRoot, p)
    ensures p == PurchaseSync.LedgerPath(card, period)
  {
    PurchaseSync.LedgerPath(card, period)
  }

  /** `exports/Belege/Belege_{card}_{period}`, with the card's spaces replaced. */
  function ReceiptsDir(card: string, period: string): (d: string)
    ensures Under(AttachmentRoot, d)
  {
    AttachmentRoot + ("Belege_" + Underscored(card) + "_" + period)
  }

  /** Where a receipt reference is saved: the directory joined with the part
      after the reference's last `/`. None when the reference is false, or
      when that part is empty (the path then names the directory itself and
      opening it fails inside the `try`). */
  function Target(dir: string, reference: Cell): (t: Option<string>)
    ensures t.Some? <==> Truthy(reference) && reference.Text? && LastSegment(reference.s) != ""
    ensures t.Some? ==> t.value == Join(dir, LastSegment(reference.s))
  {
    if Truthy(reference) && reference.Text? && LastSegment(reference.s) != "" then
      Some(Join(dir, LastSegment(reference.s)))
    else None
  }

  /** The files after one row's download. */
  function FetchRow(files: map<string, Blob>, row: Record, dir: string, fetch: string -> Option<Bytes>): (r: map<string, Blob>)
    ensures forall p :: Target(dir, Field(row, "receiptPath")) != Some(p) ==> Lookup(r, p) == Lookup(files, p)
  {
    var reference := Field(row, "receiptPath");
    match Target(dir, reference)
    case Some(p) => Fetched(files, reference.s, p, fetch)
    case None => files
  }

  /** The files after the downloads of `rows`, one after another. */
  function Downloads(files: map<string, Blob>, rows: seq<Record>, dir: string, fetch: string -> Option<Bytes>): (r: map<string, Blob>)
    ensures Under(AttachmentRoot, dir) ==> forall p :: !Under(AttachmentRoot, p) ==> Lookup(r, p) == Lookup(files, p)
    decreases |rows|
  {
    if rows == [] then files
    else
      TargetWithin(dir, Field(rows[|rows| - 1], "receiptPath"));
      FetchRow(Downloads(files, rows[..|rows| - 1], dir, fetch), rows[|rows| - 1], dir, fetch)
  }

  /** One more row downloads after the rows before it. */
  lemma DownloadsNext(files: map<string, Blob>, rows: seq<Record>, i: nat, dir: string, fetch: string -> Option<Bytes>)
    requires i < |rows|
    ensures Downloads(files, rows[..i + 1], dir, fetch) == FetchRow(Downloads(files, rows[..i], dir, fetch), rows[i], dir, fetch)
  {
    assert rows[..i + 1][..i] == rows[..i];
  }

  /** The downloads change only paths that some row's reference targets. */
  lemma {:induction false} DownloadsTargets(files: map<string, Blob>, rows: seq<Record>, dir: string,
                                            fetch: string -> Option<Bytes>, p: string)
    ensures Lookup(Downloads(files, rows, dir, fetch), p) != Lookup(files, p) ==>
              exists i :: 0 <= i < |rows| && Target(dir, Field(rows[i], "receiptPath")) == Some(p)
    decreases |rows|
  {
    if rows != [] {
      var init := rows[..|rows| - 1];
      DownloadsTargets(files, init, dir, fetch, p);
      if Lookup(Downloads(files, init, dir, fetch), p) != Lookup(files, p) {
        var i :| 0 <= i < |init| && Target(dir, Field(init[i], "receiptPath")) == Some(p);
        assert rows[i] == init[i];
      }
    }
  }

  /** The last row aiming at a path decides its contents: when its request
      succeeds, the path holds what it returned, whatever earlier rows wrote. */
  lemma {:induction false} LastDownloadWins(files: map<string, Blob>, rows: seq<Record>, dir: string,
                                            fetch: string -> Option<Bytes>, i: int)
    requires 0 <= i < |rows| && Target(dir, Field(rows[i], "receiptPath")).Some?
    requires forall j :: i < j < |rows| ==>
               Target(dir, Field(rows[j], "receiptPath")) != Target(dir, Field(rows[i], "receiptPath"))
    requires fetch(Field(rows[i], "receiptPath").s).Some?
    ensures Lookup(Downloads(files, rows, dir, fetch), Target(dir, Field(rows[i], "receiptPath")).value) ==
              Some(Data(fetch(Field(rows[i], "receiptPath").s).value))
    decreases |rows|
  {
    var init := rows[..|rows| - 1];
    var target := Target(dir, Field(rows[i], "receiptPath"));
    if i < |rows| - 1 {
      assert init[i] == rows[i];
      forall j | i < j < |init|
        ensures Target(dir, Field(init[j], "receiptPath")) != target
      {
        assert init[j] == rows[j];
      }
      LastDownloadWins(files, init, dir, fetch, i);
      DownloadsLastMisses(files, rows, dir, fetch, target.value);
    } else {
      DownloadsLastHits(files, rows, dir, fetch);
    }
  }

  /** A last row aiming elsewhere leaves a path as the rows before it did. */
  lemma DownloadsLastMisses(files: map<string, Blob>, rows: seq<Record>, dir: string, fetch: string -> Option<Bytes>,
                            p: string)
    requires rows != [] && Target(dir, Field(rows[|rows| - 1], "receiptPath")) != Some(p)
    ensures Lookup(Downloads(files, rows, dir, fetch), p) == Lookup(Downloads(files, rows[..|rows| - 1], dir, fetch), p)
  {
  }

  /** A last row whose request succeeds leaves what it returned at its target. */
  lemma DownloadsLastHits(files: map<string, Blob>, rows: seq<Record>, dir: string, fetch: string -> Option<Bytes>)
    requires rows != [] && Target(dir, Field(rows[|rows| - 1], "receiptPath")).Some?
    requires fetch(Field(rows[|rows| - 1], "receiptPath").s).Some?
    ensures Lookup(Downloads(files, rows, dir, fetch), Target(dir, Field(rows[|rows| - 1], "receiptPath")).value) ==
              Some(Data(fetch(Field(rows[|rows| - 1], "receiptPath").s).value))
  {
    var last := rows[|rows| - 1];
    var before := Downloads(files, rows[..|rows| - 1], dir, fetch);
    var reference := Field(last, "receiptPath");
    assert FetchRow(before, last, dir, fetch) == Fetched(before, reference.s, Target(dir, reference).value, fetch);
  }

  /** A receipt target lies under the attachment root with its directory. */
  lemma TargetWithin(dir: string, reference: Cell)
    ensures Under(AttachmentRoot, dir) && Target(dir, reference).Some? ==> Under(AttachmentRoot, Target(dir, reference).value)
  {
    if Under(AttachmentRoot, dir) && Target(dir, reference).Some? {
      UnderExtend(AttachmentRoot, dir, "/" + LastSegment(reference.s));
    }
  }

  /** One row of the receipt loop: a reference with a target is downloaded
      there; any other row leaves the files alone. */
  method DownloadRow(disk: Disk, row: Record, dir: string, fetch: string -> Option<Bytes>)
    modifies disk
    ensures disk.files == FetchRow(old(disk.files), row, dir, fetch)
  {
    var reference := Field(row, "receiptPath");
    var target := Target(dir, reference);
    if target.Some? {
      disk.DownloadTo(reference.s, target.value, fetch);
    }
  }

  /** The receipt loop over one group: the rows before the first true
      reference that is not text (which raises at its `split`), each
      downloaded to its target. */
  method DownloadReceipts(disk: Disk, group: seq<Record>, dir: string, fetch: string -> Option<Bytes>)
    returns (crashed: bool)
    modifies disk
    ensures disk.files == Downloads(old(disk.files), UntilCrash(group, "receiptPath", "receiptPath"), dir, fetch)
    ensures crashed <==> SlugCrash(group, "receiptPath", "receiptPath")
  {
    var i := 0;
    while i < |group|
      invariant 0 <= i <= |group|
      invariant disk.files == Downloads(old(disk.files), group[..i], dir, fetch)
      invariant forall j :: 0 <= j < i ==> !RowCrash(group[j], "receiptPath", "receiptPath")
    {
      var row := group[i];
      var reference := Field(row, "receiptPath");
      if Truthy(reference) && !reference.Text? {
        UntilFirstCrash(group, "receiptPath", "receiptPath", i);
        return true;
      }
      DownloadsNext(old(disk.files), group, i, dir, fetch);
      DownloadRow(disk, row, dir, fetch);
      i := i + 1;
    }
    UntilFirstCrash(group, "receiptPath", "receiptPath", i);
    assert group[..i] == group;
    return false;
  }

  /** The sheet the earlier script writes for a group: the label row, this
      run's rows, and the aggregate row with their sum. */
  function Rewritten(group: seq<Record>): (sheet: seq<Row>)
    ensures Parse(Legacy, sheet) == Rows(LegacyColumns, group) + [TotalRow(Legacy, Rows(LegacyColumns, group))]
    ensures Balanced(Legacy, Some(Sheet(sheet)))
  {
    var ledger := Reconcile(Legacy, None, Rows(LegacyColumns, group));
    RenderParse(Legacy, [], None, Rows(LegacyColumns, group));
    Render(Legacy, [], ledger)
  }

  /** The later script reads this script's sheet at the same path nine rows
      down. With nine or more lines, the row there is a line row (not a label
      row with `ID`), so its `ID` lookup fails and the later run keeps only
      its own rows: the earlier lines are dropped from the ledger. */
  lemma RewrittenUnread(group: seq<Record>, incoming: seq<Row>)
    requires |group| >= 9 && Text(IdLabel) !in LegacyRow(group[8])
    ensures ReadLedger(Purchases, Some(Sheet(Rewritten(group)))) == None
    ensures MergeLines(ReadLedger(Purchases, Some(Sheet(Rewritten(group)))), incoming) == incoming
  {
    var rows := Rows(LegacyColumns, group);
    var sheet := Rewritten(group);
    assert sheet == Render(Legacy, [], Reconcile(Legacy, None, rows));
    assert sheet[Purchases.offset] == rows[8];
  }

  /** The group's ledger: written from this run's rows alone, whatever the
      file at its path held before. */
  method GroupLedger(disk: Disk, card: string, period: string, group: seq<Record>)
    modifies disk
    ensures disk.files == old(disk.files)[LedgerPath(card, period) := Sheet(Rewritten(group))]
  {
    var _ := WriteLedger(disk, Legacy, [], LedgerPath(card, period), Rows(LegacyColumns, group), false);
    assert LedgerSheet(Legacy, [], Lookup(old(disk.files), LedgerPath(card, period)), Rows(LegacyColumns, group), false)
           == Sheet(Rewritten(group));
  }

  /** A group raises: the card is not text (`.replace` on it fails), a
      selected column is missing, a non-empty group has no `receiptPath`
      column, or a true reference is not text. */
  predicate GroupCrash(frame: seq<Record>, card: Cell, group: seq<Record>)
  {
    !card.Text? || !Selectable(frame, LegacyColumns) || (group != [] && !HasColumn(frame, "receiptPath")) ||
    SlugCrash(group, "receiptPath", "receiptPath")
  }

  /** The files after one iteration of the group loop: the ledger rewritten
      from the group's rows once every selected column exists, then the
      receipts up to the first row that raises. */
  function GroupSynced(files: map<string, Blob>, frame: seq<Record>, card: Cell, period: string, group: seq<Record>,
                       fetch: string -> Option<Bytes>): (r: map<string, Blob>)
    ensures forall p :: Under(PurchaseSync.LedgerRoot, p) && p != LedgerPath(CellText(card), period) ==>
              Lookup(r, p) == Lookup(files, p)
    ensures !card.Text? || !Selectable(frame, LegacyColumns) ==> r == files
    ensures card.Text? && Selectable(frame, LegacyColumns) ==>
              Lookup(r, LedgerPath(CellText(card), period)) == Some(Sheet(Rewritten(group)))
  {
    if !card.Text? || !Selectable(frame, LegacyColumns) then files
    else
      var path := LedgerPath(CellText(card), period);
      var written := files[path := Sheet(Rewritten(group))];
      LookupUpdate(files, path, Sheet(Rewritten(group)));
      if group != [] && !HasColumn(frame, "receiptPath") then written
      else
        var r := Downloads(written, UntilCrash(group, "receiptPath", "receiptPath"), ReceiptsDir(CellText(card), period),
                           fetch);
        LedgersUntouched(PurchaseSync.LedgerRoot, written, r);
        r
  }

  /** One iteration of the group loop: a missing selected column raises
      before anything is written; the ledger holds this run's rows and the
      aggregate row, whatever the file held before; a missing `receiptPath`
      column raises at the group's first row. */
  method SyncGroup(frame: seq<Record>, disk: Disk, card: Cell, period: string, group: seq<Record>,
                   fetch: string -> Option<Bytes>)
    returns (crashed: bool)
    modifies disk
    ensures disk.files == GroupSynced(old(disk.files), frame, card, period, group, fetch)
    ensures crashed <==> GroupCrash(frame, card, group)
  {
    if !card.Text? {
      return true;
    }
    if !Selectable(frame, LegacyColumns) {
      return true;
    }
    GroupLedger(disk, CellText(card), period, group);
    if group != [] && !HasColumn(frame, "receiptPath") {
      return true;
    }
    crashed := DownloadReceipts(disk, group, ReceiptsDir(CellText(card), period), fetch);
  }

  /** A group that does not raise leaves its own ledger balanced and every
      other one as it was. */
  lemma GroupBalanced(files: map<string, Blob>, records: seq<Record>, k: LedgerKey, q: string,
                      fetch: string -> Option<Bytes>)
    requires !GroupCrash(records, k.group, Group(Dates, records, k)) && Under(PurchaseSync.LedgerRoot, q)
    requires q != LedgerPath(CellText(k.group), k.period) ==> Balanced(Legacy, Lookup(files, q))
    ensures Balanced(Legacy, Lookup(GroupSynced(files, records, k.group, k.period, Group(Dates, records, k), fetch), q))
  {
    var r := GroupSynced(files, records, k.group, k.period, Group(Dates, records, k), fetch);
    if q == LedgerPath(CellText(k.group), k.period) {
      assert Lookup(r, q) == Some(Sheet(Rewritten(Group(Dates, records, k))));
    } else {
      assert Lookup(r, q) == Lookup(files, q);
    }
  }

  /** The files themselves: the state of a drive-less run. */
  function Files(files: map<string, Blob>): map<string, Blob>
  {
    files
  }

  /** One iteration of the group loop, as a step of the loop over the keys. */
  function Step(records: seq<Record>, fetch: string -> Option<Bytes>): (map<string, Blob>, LedgerKey) -> map<string, Blob>
  {
    (t: map<string, Blob>, k: LedgerKey) => GroupSynced(t, records, k.group, k.period, Group(Dates, records, k), fetch)
  }

  /** Whether the group of a key raises. */
  function Raises(records: seq<Record>): LedgerKey -> bool
  {
    (k: LedgerKey) => GroupCrash(records, k.group, Group(Dates, records, k))
  }

  /** The ledger path of a key. */
  function KeyPath(k: LedgerKey): (p: string)
    ensures Under(PurchaseSync.LedgerRoot, p)
  {
    LedgerPath(CellText(k.group), k.period)
  }

  /** Every group keeps the ledgers apart and balances its own ledger when
      it does not raise. */
  lemma StepKeepsLedgers(records: seq<Record>, fetch: string -> Option<Bytes>)
    ensures KeepsLedgers(Legacy, PurchaseSync.LedgerRoot, Step(records, fetch), Raises(records), Files, KeyPath)
  {
    forall t: map<string, Blob>, k: LedgerKey | !GroupCrash(records, k.group, Group(Dates, records, k))
      ensures Balanced(Legacy, Lookup(Step(records, fetch)(t, k), KeyPath(k)))
    {
      GroupBalanced(t, records, k, KeyPath(k), fetch);
    }
  }

  /** The group loop over the keys in order, up to and including the first
      group that raises; false when one raised. */
  method SyncKeys(records: seq<Record>, keys: seq<LedgerKey>, disk: Disk, fetch: string -> Option<Bytes>)
    returns (completed: bool)
    modifies disk
    ensures disk.files == Loop(old(disk.files), keys, Step(records, fetch), Raises(records))
    ensures completed <==> Completes(keys, Raises(records))
  {
    ghost var step, raises := Step(records, fetch), Raises(records);
    ghost var final := Loop(disk.files, keys, step, raises);
    var i := 0;
    while i < |keys|
      invariant 0 <= i <= |keys|
      invariant Loop(disk.files, keys[i..], step, raises) == final
      invariant Completes(keys, raises) == Completes(keys[i..], raises)
    {
      var k := keys[i];
      assert keys[i..][1..] == keys[i + 1..];
      var crashed := SyncGroup(records, disk, k.group, k.period, Group(Dates, records, k), fetch);
      if crashed {
        return false;
      }
      i := i + 1;
    }
    return true;
  }

  /** What `sync_purchases` of the earlier script ends with. */
  function Outcome(records: seq<Record>): RunOutcome
  {
    var columns := Columns(records);
    if records == [] || columns == {} then NoData
    else if "date" !in columns || "cardUsed" !in columns then Crashed
    else if exists k :: k in Keys(Dates, records) && GroupCrash(records, k.group, Group(Dates, records, k)) then Crashed
    else Completed
  }

  /** The files after the earlier script's run: unchanged for an empty
      fetch or a missing `date` or card column; otherwise the groups up to
      the first that raises. */
  function Run(files: map<string, Blob>, records: seq<Record>, fetch: string -> Option<Bytes>): map<string, Blob>
  {
    var columns := Columns(records);
    if records == [] || columns == {} || "date" !in columns || "cardUsed" !in columns then files
    else Loop(files, Keys(Dates, records), Step(records, fetch), Raises(records))
  }

  /** The loop over a frame's keys completes exactly when none of its
      groups raises. */
  lemma KeysComplete(records: seq<Record>)
    ensures Completes(Keys(Dates, records), Raises(records)) <==>
              forall k :: k in Keys(Dates, records) ==> !GroupCrash(records, k.group, Group(Dates, records, k))
  {
    var keys := Keys(Dates, records);
    CompletesIff(keys, Raises(records));
    if Completes(keys, Raises(records)) {
      forall k | k in keys ensures !GroupCrash(records, k.group, Group(Dates, records, k)) {
        var j :| 0 <= j < |keys| && keys[j] == k;
        assert !Raises(records)(keys[j]);
      }
    } else {
      var j :| 0 <= j < |keys| && Raises(records)(keys[j]);
      assert keys[j] in keys;
    }
  }

  /** A run that completes leaves every group's ledger balanced. */
  lemma RunBalanced(files: map<string, Blob>, records: seq<Record>, fetch: string -> Option<Bytes>)
    requires Outcome(records) == Completed
    ensures forall k :: k in Keys(Dates, records) ==>
              Balanced(Legacy, Lookup(Run(files, records, fetch), LedgerPath(CellText(k.group), k.period)))
  {
    var keys := Keys(Dates, records);
    KeysComplete(records);
    StepKeepsLedgers(records, fetch);
    forall k | k in keys
      ensures Balanced(Legacy, Lookup(Run(files, records, fetch), LedgerPath(CellText(k.group), k.period)))
    {
      var j :| 0 <= j < |keys| && keys[j] == k;
      LoopBalanced(Legacy, PurchaseSync.LedgerRoot, files, keys, Step(records, fetch), Raises(records), Files, KeyPath, j);
    }
  }

  /** `sync_purchases` of the earlier script: an empty fetch or an empty
      frame ends the run; a missing `date` or card column raises; otherwise
      every (card, period) group gets its ledger and receipts. */
  method SyncPurchases(records: seq<Record>, disk: Disk, fetch: string -> Option<Bytes>) returns (outcome: RunOutcome)
    modifies disk
    ensures outcome == Outcome(records)
    ensures disk.files == Run(old(disk.files), records, fetch)
    ensures outcome == Completed ==> forall k :: k in Keys(Dates, records) ==> k.group.Text?
    ensures outcome == Completed ==>
              forall k :: k in Keys(Dates, records) ==>
                Balanced(Legacy, Lookup(disk.files, LedgerPath(CellText(k.group), k.period)))
  {
    var columns := Columns(records);
    if records == [] || columns == {} {
      return NoData;
    }
    if "date" !in columns || "cardUsed" !in columns {
      return Crashed;
    }
    var keys := Keys(Dates, records);
    var completed := SyncKeys(records, keys, disk, fetch);
    KeysComplete(records);
    if completed {
      RunBalanced(old(disk.files), records, fetch);
    }
    return if completed then Completed else Crashed;
  }
}
