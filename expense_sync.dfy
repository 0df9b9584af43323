/** `sync_expenses` of the expense-claim script: one claim form per employee
    and month, its receipts converted to PDF, both mirrored to the drive. */
module ExpenseSync {
  import opened Values
  import opened Naming
  import opened Partition
  import opened Ledger
  import opened Schemas
  import opened Attachments
  import opened Mirror
  import opened SyncSteps

  /** Expenses are grouped by employee and by the month of `created_date_time`. */
  const Employees: Grouping := Grouping("employeeName", "created_date_time")

  const LedgerRoot: LedgerDir := "exports/Kostenabrechnungen/"

  /** The claim form's local path. The employee name and the period have
      their spaces replaced by `_` in the directory and in the file name. */
  function LedgerPath(employee: string, period: string): (p: string)
    ensures Under(LedgerRoot, p)
  {
    var e, m := Underscored(employee), Underscored(period);
    LedgerRoot + (e + "/" + m + "/" + "Kostenabrechnung_" + e + "_" + m + ".xlsx")
  }

  /** The directory of the group's receipts, under the attachment root. */
  function ReceiptsDir(employee: string, period: string): (d: string)
    ensures Under(AttachmentRoot, d)
  {
    var e, m := Underscored(employee), Underscored(period);
    AttachmentRoot + ("Kostenabrechnungen/" + m + "/Belege_Kostenabrechnung_" + e + "_" + m)
  }

  /** The drive folder of an employee's receipts for one month. */
  function ReceiptsFolderName(employee: string, period: string): string
  {
    "Belege_Kostenabrechnung_" + Underscored(employee) + "_" + Underscored(period)
  }

  /** The header of a claim form: the bank and IBAN lines show the group's
      first value, or `N/A`. */
  function ClaimHeader(frame: seq<Record>, group: seq<Record>, employee: string, period: string): (h: seq<Row>)
    ensures |h| == 6 && |h| < Expenses.offset
    ensures h[3] == [Text("Mitarbeiter: " + employee), Text(""), Text(""), Text("Monat/Jahr: " + period)]
    ensures h[4] == [Text("Bank: " + HeaderValue(frame, group, "bankName"))]
    ensures h[5] == [Text("IBAN: " + HeaderValue(frame, group, "iban")), Text(""), Text(""),
                     Text("Konto lautet auf: " + employee)]
  {
    ExpensesHeader(employee, period, HeaderValue(frame, group, "bankName"), HeaderValue(frame, group, "iban"))
  }

  /** The group's claim form: the file at its path merged with the group's
      rows, under the claim header. */
  function Statement(local: map<string, Blob>, frame: seq<Record>, employee: string, period: string,
                     group: seq<Record>): Blob
  {
    LedgerSheet(Expenses, ClaimHeader(frame, group, employee, period), Lookup(local, LedgerPath(employee, period)),
                Rows(ExpenseColumns, group), true)
  }

  /** The state after a group whose folders exist: the claim form written
      and uploaded to the month folder, then the receipts up to the first
      row that raises. A missing `receiptPath` column raises nothing here
      (`row.get` gives None). */
  function Processed(s: State, frame: seq<Record>, monthFolder: nat, receiptsFolder: nat, employee: string,
                     period: string, group: seq<Record>, fetch: string -> Option<Bytes>,
                     convert: Bytes -> Option<Bytes>): (r: State)
    ensures Lookup(r.local, LedgerPath(employee, period)) == Some(Statement(s.local, frame, employee, period, group))
    ensures forall p :: Under(LedgerRoot, p) && p != LedgerPath(employee, period) ==> Lookup(r.local, p) == Lookup(s.local, p)
    ensures r.folders == s.folders && s.remote <= r.remote
    ensures FileExists(r.remote, LastSegment(LedgerPath(employee, period)), monthFolder)
  {
    var path := LedgerPath(employee, period);
    var filed := Filed(s, Expenses, ClaimHeader(frame, group, employee, period), path, Rows(ExpenseColumns, group),
                       monthFolder);
    var r := Receipts(filed, UntilCrash(group, "receiptPath", "description"), "description",
                      ReceiptsDir(employee, period), receiptsFolder, fetch, convert);
    LedgersUntouched(LedgerRoot, filed.local, r.local);
    FileExistsGrows(filed.remote, r.remote, LastSegment(path), monthFolder);
    r
  }

  /** The part of a group after its folders exist: the claim form, its
      upload, and the receipts. */
  method LedgerAndReceipts(frame: seq<Record>, drive: Drive, disk: Disk,
                           monthFolder: nat, receiptsFolder: nat, employee: string, period: string, group: seq<Record>,
                           fetch: string -> Option<Bytes>, convert: Bytes -> Option<Bytes>)
    returns (crashed: bool)
    requires drive.Valid()
    modifies drive, disk
    ensures drive.Valid()
    ensures StateOf(disk, drive) ==
              Processed(old(StateOf(disk, drive)), frame, monthFolder, receiptsFolder, employee, period, group,
                        fetch, convert)
    ensures crashed <==> SlugCrash(group, "receiptPath", "description")
  {
    FileLedger(disk, drive, Expenses, ClaimHeader(frame, group, employee, period), LedgerPath(employee, period),
               Rows(ExpenseColumns, group), monthFolder);
    crashed := UploadReceipts(disk, drive, group, "description", ReceiptsDir(employee, period), receiptsFolder,
                              fetch, convert);
  }

  /** A group raises: the employee name is not text (`.replace` on it
      fails), a selected column is missing, or a row with a true reference
      has a description that is not text. */
  predicate GroupCrash(frame: seq<Record>, employee: Cell, group: seq<Record>)
  {
    !employee.Text? || !Selectable(frame, ExpenseColumns) || SlugCrash(group, "receiptPath", "description")
  }

  /** The state after one iteration of the group loop: the folders, then
      (when every selected column exists) the claim form and the receipts. */
  function GroupSynced(s: State, frame: seq<Record>, claims: nat, receipts: nat, employee: Cell, period: string,
                       group: seq<Record>, fetch: string -> Option<Bytes>, convert: Bytes -> Option<Bytes>): (r: State)
    ensures s.folders <= r.folders && s.remote <= r.remote
    ensures forall p :: Under(LedgerRoot, p) && p != LedgerPath(CellText(employee), period) ==>
              Lookup(r.local, p) == Lookup(s.local, p)
    ensures !employee.Text? || !Selectable(frame, ExpenseColumns) ==> r.local == s.local && r.remote == s.remote
    ensures employee.Text? && Selectable(frame, ExpenseColumns) ==>
              Lookup(r.local, LedgerPath(CellText(employee), period)) ==
              Some(Statement(s.local, frame, CellText(employee), period, group))
  {
    if !employee.Text? then s
    else
      var e := CellText(employee);
      var (monthFolder, receiptsFolder, folders) :=
        GroupFolderIds(s.folders, claims, receipts, Underscored(e), Underscored(period), ReceiptsFolderName(e, period));
      var placed := s.(folders := folders);
      if !Selectable(frame, ExpenseColumns) then placed
      else Processed(placed, frame, monthFolder, receiptsFolder, e, period, group, fetch, convert)
  }

  method SyncGroup(frame: seq<Record>, drive: Drive, disk: Disk, claims: nat, receipts: nat,
                   employee: Cell, period: string, group: seq<Record>,
                   fetch: string -> Option<Bytes>, convert: Bytes -> Option<Bytes>)
    returns (crashed: bool)
    requires drive.Valid()
    modifies drive, disk
    ensures drive.Valid()
    ensures StateOf(disk, drive) ==
              GroupSynced(old(StateOf(disk, drive)), frame, claims, receipts, employee, period, group, fetch, convert)
    ensures crashed <==> GroupCrash(frame, employee, group)
  {
    if !employee.Text? {
      return true;
    }
    var e := CellText(employee);
    var monthFolder, receiptsFolder :=
      GroupFolders(drive, claims, receipts, Underscored(e), Underscored(period), ReceiptsFolderName(e, period));
    if !Selectable(frame, ExpenseColumns) {
      return true;
    }
    crashed := LedgerAndReceipts(frame, drive, disk, monthFolder, receiptsFolder, e, period, group, fetch, convert);
  }

  /** A group that does not raise leaves its own claim form balanced and
      every other one as it was. */
  lemma GroupBalanced(s: State, records: seq<Record>, claims: nat, receipts: nat, k: LedgerKey, q: string,
                      fetch: string -> Option<Bytes>, convert: Bytes -> Option<Bytes>)
    requires !GroupCrash(records, k.group, Group(Employees, records, k)) && Under(LedgerRoot, q)
    requires q != LedgerPath(CellText(k.group), k.period) ==> Balanced(Expenses, Lookup(s.local, q))
    ensures Balanced(Expenses, Lookup(GroupSynced(s, records, claims, receipts, k.group, k.period,
                                                  Group(Employees, records, k), fetch, convert).local, q))
  {
    var r := GroupSynced(s, records, claims, receipts, k.group, k.period, Group(Employees, records, k), fetch, convert);
    if q == LedgerPath(CellText(k.group), k.period) {
      assert Lookup(r.local, q) ==
             Some(Statement(s.local, records, CellText(k.group), k.period, Group(Employees, records, k)));
    } else {
      assert Lookup(r.local, q) == Lookup(s.local, q);
    }
  }

  /** One iteration of the group loop, as a step of the loop over the keys. */
  function Step(records: seq<Record>, claims: nat, receipts: nat, fetch: string -> Option<Bytes>,
                convert: Bytes -> Option<Bytes>): (State, LedgerKey) -> State
  {
    (t: State, k: LedgerKey) =>
      GroupSynced(t, records, claims, receipts, k.group, k.period, Group(Employees, records, k), fetch, convert)
  }

  /** Whether the group of a key raises. */
  function Raises(records: seq<Record>): LedgerKey -> bool
  {
    (k: LedgerKey) => GroupCrash(records, k.group, Group(Employees, records, k))
  }

  /** The claim form path of a key. */
  function KeyPath(k: LedgerKey): (p: string)
    ensures Under(LedgerRoot, p)
  {
    LedgerPath(CellText(k.group), k.period)
  }

  /** Every group keeps the claim forms apart and balances its own claim form when it
      does not raise. */
  lemma StepKeepsLedgers(records: seq<Record>, claims: nat, receipts: nat, fetch: string -> Option<Bytes>,
                         convert: Bytes -> Option<Bytes>)
    ensures KeepsLedgers(Expenses, LedgerRoot, Step(records, claims, receipts, fetch, convert), Raises(records),
                         Local, KeyPath)
  {
    forall t: State, k: LedgerKey | !GroupCrash(records, k.group, Group(Employees, records, k))
      ensures Balanced(Expenses, Lookup(Step(records, claims, receipts, fetch, convert)(t, k).local, KeyPath(k)))
    {
      GroupBalanced(t, records, claims, receipts, k, KeyPath(k), fetch, convert);
    }
  }

  /** The group loop over the keys in order, up to and including the first
      group that raises; false when one raised. */
  method SyncKeys(records: seq<Record>, keys: seq<LedgerKey>, drive: Drive, disk: Disk, claims: nat, receipts: nat,
                  fetch: string -> Option<Bytes>, convert: Bytes -> Option<Bytes>)
    returns (completed: bool)
    requires drive.Valid()
    modifies drive, disk
    ensures drive.Valid()
    ensures StateOf(disk, drive) ==
              Loop(old(StateOf(disk, drive)), keys, Step(records, claims, receipts, fetch, convert), Raises(records))
    ensures completed <==> Completes(keys, Raises(records))
  {
    ghost var step, raises := Step(records, claims, receipts, fetch, convert), Raises(records);
    ghost var final := Loop(StateOf(disk, drive), keys, step, raises);
    var i := 0;
    while i < |keys|
      invariant 0 <= i <= |keys| && drive.Valid()
      invariant Loop(StateOf(disk, drive), keys[i..], step, raises) == final
      invariant Completes(keys, raises) == Completes(keys[i..], raises)
    {
      var k := keys[i];
      assert keys[i..][1..] == keys[i + 1..];
      var crashed := SyncGroup(records, drive, disk, claims, receipts, k.group, k.period,
                               Group(Employees, records, k), fetch, convert);
      if crashed {
        return false;
      }
      i := i + 1;
    }
    return true;
  }

  /** What `sync_expenses` ends with. */
  function Outcome(records: seq<Record>): RunOutcome
  {
    var columns := Columns(records);
    if records == [] || columns == {} then NoData
    else if "created_date_time" !in columns || "employeeName" !in columns then Crashed
    else if exists k :: k in Keys(Employees, records) && GroupCrash(records, k.group, Group(Employees, records, k)) then Crashed
    else Completed
  }

  /** The state after `sync_expenses`: nothing for an empty fetch or a
      missing timestamp column; the top-level folders, and then the groups
      up to the first that raises. */
  function Run(s: State, records: seq<Record>, fetch: string -> Option<Bytes>, convert: Bytes -> Option<Bytes>): State
  {
    var columns := Columns(records);
    if records == [] || columns == {} || "created_date_time" !in columns then s
    else
      var (claims, receipts, folders) := Roots(s.folders, "Kostenabrechnungen");
      var rooted := s.(folders := folders);
      if "employeeName" !in columns then rooted
      else Loop(rooted, Keys(Employees, records), Step(records, claims, receipts, fetch, convert), Raises(records))
  }

  /** The loop over a frame's keys completes exactly when none of its
      groups raises. */
  lemma KeysComplete(records: seq<Record>)
    ensures Completes(Keys(Employees, records), Raises(records)) <==>
              forall k :: k in Keys(Employees, records) ==> !GroupCrash(records, k.group, Group(Employees, records, k))
  {
    var keys := Keys(Employees, records);
    CompletesIff(keys, Raises(records));
    if Completes(keys, Raises(records)) {
      forall k | k in keys ensures !GroupCrash(records, k.group, Group(Employees, records, k)) {
        var j :| 0 <= j < |keys| && keys[j] == k;
        assert !Raises(records)(keys[j]);
      }
    } else {
      var j :| 0 <= j < |keys| && Raises(records)(keys[j]);
      assert keys[j] in keys;
    }
  }

  /** A run that completes leaves every group's claim form balanced. */
  lemma RunBalanced(s: State, records: seq<Record>, fetch: string -> Option<Bytes>, convert: Bytes -> Option<Bytes>)
    requires Outcome(records) == Completed
    ensures forall k :: k in Keys(Employees, records) ==>
              Balanced(Expenses, Lookup(Run(s, records, fetch, convert).local, LedgerPath(CellText(k.group), k.period)))
  {
    var (claims, receipts, folders) := Roots(s.folders, "Kostenabrechnungen");
    var keys := Keys(Employees, records);
    var rooted := s.(folders := folders);
    var step, raises := Step(records, claims, receipts, fetch, convert), Raises(records);
    KeysComplete(records);
    StepKeepsLedgers(records, claims, receipts, fetch, convert);
    forall k | k in keys
      ensures Balanced(Expenses, Lookup(Run(s, records, fetch, convert).local, LedgerPath(CellText(k.group), k.period)))
    {
      var j :| 0 <= j < |keys| && keys[j] == k;
      LoopBalanced(Expenses, LedgerRoot, rooted, keys, step, raises, Local, KeyPath, j);
    }
  }

  /** `sync_expenses`: an empty fetch or an empty frame ends the run before
      any drive call; a missing timestamp or employee column raises;
      otherwise every (employee, period) group gets its claim form and
      receipts. */
  method SyncExpenses(records: seq<Record>, drive: Drive, disk: Disk,
                      fetch: string -> Option<Bytes>, convert: Bytes -> Option<Bytes>)
    returns (outcome: RunOutcome)
    requires drive.Valid()
    modifies drive, disk
    ensures drive.Valid()
    ensures outcome == Outcome(records)
    ensures StateOf(disk, drive) == Run(old(StateOf(disk, drive)), records, fetch, convert)
    ensures outcome == Completed ==> forall k :: k in Keys(Employees, records) ==> k.group.Text?
    ensures outcome == Completed ==>
              forall k :: k in Keys(Employees, records) ==>
                Balanced(Expenses, Lookup(disk.files, LedgerPath(CellText(k.group), k.period)))
  {
    var columns := Columns(records);
    if records == [] || columns == {} {
      return NoData;
    }
    if "created_date_time" !in columns {
      return Crashed;
    }
    var claims, receipts := RootFolders(drive, "Kostenabrechnungen");
    if "employeeName" !in columns {
      return Crashed;
    }
    var keys := Keys(Employees, records);
    var completed := SyncKeys(records, keys, drive, disk, claims, receipts, fetch, convert);
    KeysComplete(records);
    if completed {
      RunBalanced(old(StateOf(disk, drive)), records, fetch, convert);
    }
    return if completed then Completed else Crashed;
  }
}
