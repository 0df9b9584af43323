/** The steps the three sync scripts share: writing a group's ledger file,
    the per-row receipt loop of the purchases and expenses scripts, and the
    path facts that keep ledgers and attachments apart. */
module SyncSteps {
  import opened Values
  import opened Naming
  import opened Partition
  import opened Ledger
  import opened Attachments
  import opened Mirror

  /** How a run ends: nothing fetched, an exception outside any `try`
      (a missing column, or a method called on a value that is not text),
      or every group processed. */
  datatype RunOutcome = NoData | Crashed | Completed

  /** `p` lies under the directory prefix `root`. */
  predicate Under(root: string, p: string)
  {
    |root| <= |p| && p[..|root|] == root
  }

  lemma UnderExtend(root: string, dir: string, rest: string)
    requires Under(root, dir)
    ensures Under(root, dir + rest)
  {
    assert (dir + rest)[..|root|] == dir[..|root|];
  }

  /** No path lies under two roots that differ at some position. */
  lemma RootsDisjoint(r1: string, r2: string, p: string, i: nat)
    requires i < |r1| && i < |r2| && r1[i] != r2[i]
    ensures Under(r1, p) ==> !Under(r2, p)
  {
    if Under(r1, p) {
      assert p[i] == p[..|r1|][i] == r1[i];
    }
  }

  /** Every attachment of every script lies under this directory. */
  const AttachmentRoot: string := "exports/Belege/"

  /** A directory holding one script's ledgers. It parts from the
      attachment root right after `exports/`, so no path lies under both. */
  type LedgerDir = root: string | 8 < |root| && root[8] != AttachmentRoot[8] witness "exports/Ledger/"

  /** Writes that change nothing outside the attachment root leave every
      ledger as it was. */
  lemma LedgersUntouched(root: LedgerDir, before: map<string, Blob>, after: map<string, Blob>)
    requires forall p :: !Under(AttachmentRoot, p) ==> Lookup(after, p) == Lookup(before, p)
    ensures forall p :: Under(root, p) ==> Lookup(after, p) == Lookup(before, p)
  {
    forall p | Under(root, p) ensures Lookup(after, p) == Lookup(before, p) {
      RootsDisjoint(root, AttachmentRoot, p, 8);
    }
  }

  /** Position `j` of a sequence is position `j - 1` of its tail. */
  lemma TailAt<T>(xs: seq<T>, j: nat)
    requires 0 < j < |xs|
    ensures xs[1..][j - 1] == xs[j]
  {
  }

  /** The disk and the drive side by side: everything a run changes. */
  datatype State = State(local: map<string, Blob>, folders: seq<Folder>, remote: seq<RemoteFile>)

  /** The state a disk and a drive hold. */
  function StateOf(disk: Disk, drive: Drive): State
    reads disk, drive
  {
    State(disk.files, drive.folders, drive.files)
  }

  /** The local files of a state. */
  function Local(s: State): map<string, Blob>
  {
    s.local
  }

  /** The top-level folders of a run: `{name}` for the ledgers, `Belege`,
      and `Belege/{name}` for the attachments. Returns the ledger folder,
      the attachment folder and the folders afterwards. */
  function Roots(folders: seq<Folder>, name: string): (r: (nat, nat, seq<Folder>))
    ensures folders <= r.2
    ensures r.0 < |r.2| && r.2[r.0].name == name
    ensures r.1 < |r.2| && r.2[r.1].name == name && r.2[r.1].parent.Some? &&
            r.2[r.1].parent.value < |r.2| && r.2[r.2[r.1].parent.value].name == "Belege"
  {
    var (ledgers, f1) := GetOrCreate(folders, name, None);
    var (belege, f2) := GetOrCreate(f1, "Belege", None);
    var (attachments, f3) := GetOrCreate(f2, name, Some(belege));
    assert f3[ledgers] == f1[ledgers] && f3[belege] == f2[belege];
    (ledgers, attachments, f3)
  }

  method RootFolders(drive: Drive, name: string) returns (ledgers: nat, attachments: nat)
    requires drive.Valid()
    modifies drive
    ensures drive.Valid() && drive.files == old(drive.files)
    ensures (ledgers, attachments, drive.folders) == Roots(old(drive.folders), name)
  {
    ledgers := drive.GetOrCreateFolder(name, None);
    var belege := drive.GetOrCreateFolder("Belege", None);
    attachments := drive.GetOrCreateFolder(name, Some(belege));
  }

  /** The folders of one group: `{owner}/{month}` under the ledger folder
      and `{month}/{bundle}` under the attachment folder. Returns the month
      folder, the bundle folder and the folders afterwards. */
  function GroupFolderIds(folders: seq<Folder>, ledgers: nat, attachments: nat, owner: string, month: string,
                          bundle: string): (r: (nat, nat, seq<Folder>))
    ensures folders <= r.2
    ensures NestedFolder(r.2, r.0, month, owner, ledgers)
    ensures NestedFolder(r.2, r.1, bundle, month, attachments)
  {
    var (ownerFolder, f1) := GetOrCreate(folders, owner, Some(ledgers));
    var (monthFolder, f2) := GetOrCreate(f1, month, Some(ownerFolder));
    var (bundleMonth, f3) := GetOrCreate(f2, month, Some(attachments));
    var (bundleFolder, f4) := GetOrCreate(f3, bundle, Some(bundleMonth));
    assert NestedFolder(f2, monthFolder, month, owner, ledgers) by {
      assert f2[ownerFolder] == f1[ownerFolder];
    }
    NestedFolderGrows(f2, f4, monthFolder, month, owner, ledgers);
    (monthFolder, bundleFolder, f4)
  }

  /** The four folder lookups of a group, in the scripts' order. */
  method GroupFolders(drive: Drive, ledgers: nat, attachments: nat, owner: string, month: string, bundle: string)
    returns (monthFolder: nat, bundleFolder: nat)
    requires drive.Valid()
    modifies drive
    ensures drive.Valid() && drive.files == old(drive.files)
    ensures (monthFolder, bundleFolder, drive.folders) ==
              GroupFolderIds(old(drive.folders), ledgers, attachments, owner, month, bundle)
  {
    var ownerFolder := drive.GetOrCreateFolder(owner, Some(ledgers));
    monthFolder := drive.GetOrCreateFolder(month, Some(ownerFolder));
    var bundleMonth := drive.GetOrCreateFolder(month, Some(attachments));
    bundleFolder := drive.GetOrCreateFolder(bundle, Some(bundleMonth));
  }

  /** A file holds a balanced ledger: a sheet whose table ends in the
      aggregate row, and that row carries the sum of the rows above it. */
  predicate Balanced(sc: Schema, file: Option<Blob>)
  {
    file.Some? && file.value.Sheet? &&
    var l := Parse(sc, file.value.rows);
    |l| > 0 && IdOf(l[|l| - 1]) == Sentinel &&
    CellAt(l[|l| - 1], sc.amount) == Amount(Sum(l[..|l| - 1], sc.amount))
  }

  /** The group loop of a script over its keys in order: `step` runs one
      group and `raises` tells whether that group raises; the loop stops
      after the first group that does. */
  function Loop<S>(s: S, keys: seq<LedgerKey>, step: (S, LedgerKey) -> S, raises: LedgerKey -> bool): S
    decreases |keys|
  {
    if keys == [] then s
    else
      var next := step(s, keys[0]);
      if raises(keys[0]) then next else Loop(next, keys[1..], step, raises)
  }

  /** The loop gets through every group: none of them raises. */
  predicate Completes(keys: seq<LedgerKey>, raises: LedgerKey -> bool)
    decreases |keys|
  {
    keys == [] || (!raises(keys[0]) && Completes(keys[1..], raises))
  }

  /** The loop completes exactly when no group raises. */
  lemma {:induction false} CompletesIff(keys: seq<LedgerKey>, raises: LedgerKey -> bool)
    ensures Completes(keys, raises) <==> forall j :: 0 <= j < |keys| ==> !raises(keys[j])
    decreases |keys|
  {
    if keys != [] {
      CompletesIff(keys[1..], raises);
      assert forall j :: 1 <= j < |keys| ==> keys[1..][j - 1] == keys[j];
    }
  }

  /** A step keeps a script's ledgers apart: every key's path lies under
      `root`, a step changes no ledger there but the one at its key's path,
      and a group that does not raise leaves that one balanced. `files`
      gives the local files of a state. */
  ghost predicate KeepsLedgers<S(!new)>(sc: Schema, root: string, step: (S, LedgerKey) -> S, raises: LedgerKey -> bool,
                            files: S -> map<string, Blob>, path: LedgerKey -> string)
  {
    (forall k :: Under(root, path(k))) &&
    (forall t, k, q :: Under(root, q) && q != path(k) ==> Lookup(files(step(t, k)), q) == Lookup(files(t), q)) &&
    (forall t, k :: !raises(k) ==> Balanced(sc, Lookup(files(step(t, k)), path(k))))
  }

  /** Groups that do not raise keep a balanced ledger balanced. */
  lemma {:induction false} LoopKeepsBalanced<S(!new)>(sc: Schema, root: string, s: S, keys: seq<LedgerKey>,
                                                step: (S, LedgerKey) -> S, raises: LedgerKey -> bool,
                                                files: S -> map<string, Blob>, path: LedgerKey -> string, q: string)
    requires KeepsLedgers(sc, root, step, raises, files, path) && Completes(keys, raises)
    requires Under(root, q) && Balanced(sc, Lookup(files(s), q))
    ensures Balanced(sc, Lookup(files(Loop(s, keys, step, raises)), q))
    decreases |keys|
  {
    if keys != [] {
      var next := step(s, keys[0]);
      assert Balanced(sc, Lookup(files(next), q)) by {
        if q != path(keys[0]) {
          assert Lookup(files(next), q) == Lookup(files(s), q);
        }
      }
      LoopKeepsBalanced(sc, root, next, keys[1..], step, raises, files, path, q);
    }
  }

  /** A loop that gets through every group leaves every group's ledger
      balanced, whichever later group shares its path. */
  lemma {:induction false} LoopBalanced<S(!new)>(sc: Schema, root: string, s: S, keys: seq<LedgerKey>,
                                           step: (S, LedgerKey) -> S, raises: LedgerKey -> bool,
                                           files: S -> map<string, Blob>, path: LedgerKey -> string, j: nat)
    requires KeepsLedgers(sc, root, step, raises, files, path) && Completes(keys, raises) && j < |keys|
    ensures Balanced(sc, Lookup(files(Loop(s, keys, step, raises)), path(keys[j])))
    decreases |keys|
  {
    var next := step(s, keys[0]);
    if j == 0 {
      LoopKeepsBalanced(sc, root, next, keys[1..], step, raises, files, path, path(keys[0]));
    } else {
      assert keys[1..][j - 1] == keys[j];
      LoopBalanced(sc, root, next, keys[1..], step, raises, files, path, j - 1);
    }
  }

  /** The sheet written at a ledger path: the file's own table (when
      `merge` is set; the earlier script rewrites the ledger from this run's
      rows alone) merged with `rows`, the aggregate row appended, under
      `header`. */
  function LedgerSheet(sc: Schema, header: seq<Row>, existing: Option<Blob>, rows: seq<Row>, merge: bool): (b: Blob)
    requires ValidSchema(sc) && |header| <= sc.offset
    ensures Balanced(sc, Some(b))
    ensures b.Sheet? && b.rows[..|header|] == header
    ensures StripTotal(Parse(sc, b.rows)) == MergeLines(if merge then ReadLedger(sc, existing) else None, rows)
  {
    var before := if merge then ReadLedger(sc, existing) else None;
    RenderParse(sc, header, before, rows);
    Sheet(Render(sc, header, Reconcile(sc, before, rows)))
  }

  /** Merge the group's rows into the ledger at `path`, append the
      aggregate row and write the sheet. */
  method WriteLedger(disk: Disk, sc: Schema, header: seq<Row>, path: string, rows: seq<Row>, merge: bool)
    returns (ledger: seq<Row>)
    requires ValidSchema(sc) && |header| <= sc.offset
    modifies disk
    ensures ledger == Reconcile(sc, if merge then ReadLedger(sc, Lookup(old(disk.files), path)) else None, rows)
    ensures disk.files == old(disk.files)[path := LedgerSheet(sc, header, Lookup(old(disk.files), path), rows, merge)]
  {
    var existing: Option<seq<Row>> := None;
    if merge {
      existing := ReadLedger(sc, Lookup(disk.files, path));
    }
    ledger := Reconcile(sc, existing, rows);
    disk.Save(path, Sheet(Render(sc, header, ledger)));
  }

  /** The state after a ledger is written at `path` and uploaded to
      `folder` under the path's base name. */
  function Filed(s: State, sc: Schema, header: seq<Row>, path: string, rows: seq<Row>, folder: nat): (r: State)
    requires ValidSchema(sc) && |header| <= sc.offset
    ensures Lookup(r.local, path) == Some(LedgerSheet(sc, header, Lookup(s.local, path), rows, true))
    ensures forall p :: p != path ==> Lookup(r.local, p) == Lookup(s.local, p)
    ensures r.folders == s.folders && s.remote <= r.remote && FileExists(r.remote, LastSegment(path), folder)
    ensures FileExists(s.remote, LastSegment(path), folder) ==> r.remote == s.remote
  {
    var sheet := LedgerSheet(sc, header, Lookup(s.local, path), rows, true);
    var remote := Upload(s.remote, LastSegment(path), folder, Some(sheet)).1;
    UploadStores(s.remote, LastSegment(path), folder, Some(sheet));
    LookupUpdate(s.local, path, sheet);
    State(s.local[path := sheet], s.folders, remote)
  }

  /** The ledger of a group and its upload to the group's month folder. */
  method FileLedger(disk: Disk, drive: Drive, sc: Schema, header: seq<Row>, path: string, rows: seq<Row>, folder: nat)
    requires drive.Valid() && ValidSchema(sc) && |header| <= sc.offset
    modifies disk, drive
    ensures drive.Valid()
    ensures StateOf(disk, drive) == Filed(old(StateOf(disk, drive)), sc, header, path, rows, folder)
  {
    ghost var sheet := LedgerSheet(sc, header, Lookup(disk.files, path), rows, true);
    var _ := WriteLedger(disk, sc, header, path, rows, true);
    assert Lookup(disk.files, path) == Some(sheet);
    var _ := drive.UploadToDrive(Lookup(disk.files, path), LastSegment(path), folder);
  }

  /** A path joined to a directory under the attachment root lies there too. */
  lemma JoinUnder(root: string, dir: string, name: string)
    ensures Under(root, dir) ==> Under(root, Join(dir, name))
  {
    if Under(root, dir) {
      assert Join(dir, name)[..|root|] == dir[..|root|];
    }
  }

  /** Every file added to the drive from position `from` on is a PDF in `folder`. */
  predicate AddedPdfs(files: seq<RemoteFile>, from: nat, folder: nat)
  {
    forall j :: from <= j < |files| ==> files[j].folder == folder && IsPdfPath(files[j].name)
  }

  /** The download of an attachment returns True: the reference is true
      text, the request succeeds, and the bytes are a PDF or convert to one. */
  predicate Delivers(reference: Cell, fetch: string -> Option<Bytes>, convert: Bytes -> Option<Bytes>)
  {
    Truthy(reference) && reference.Text? && fetch(reference.s).Some? &&
    (IsPdfPath(reference.s) || convert(fetch(reference.s).value).Some?)
  }

  /** With distinct image and PDF paths, the download returns True exactly
      when the attachment is delivered, and the PDF is then in place. */
  lemma StageDelivers(files: map<string, Blob>, reference: Cell, imagePath: string, pdfPath: string,
                      fetch: string -> Option<Bytes>, convert: Bytes -> Option<Bytes>)
    requires imagePath != pdfPath
    ensures var st := Stage(files, reference, imagePath, pdfPath, fetch, convert);
            (st.ok <==> Delivers(reference, fetch, convert)) && (st.ok ==> Lookup(st.files, pdfPath).Some?)
  {
    var st := Stage(files, reference, imagePath, pdfPath, fetch, convert);
    if st.ok && !IsPdfPath(reference.s) {
      assert convert(fetch(reference.s).value).Some?;
    }
  }

  /** A row raises in an attachment loop: its reference in `refField` is
      true and its `textField`, whose string method the loop calls, is not text. */
  predicate RowCrash(row: Record, refField: string, textField: string)
  {
    Truthy(Field(row, refField)) && !Field(row, textField).Text?
  }

  /** Some row of the group raises in the attachment loop. */
  predicate SlugCrash(group: seq<Record>, refField: string, textField: string)
  {
    exists i :: 0 <= i < |group| && RowCrash(group[i], refField, textField)
  }

  /** The rows an attachment loop gets through: those before the first row
      that raises, or all of them. */
  function UntilCrash(rows: seq<Record>, refField: string, textField: string): (r: seq<Record>)
    ensures r <= rows
    ensures forall j :: 0 <= j < |r| ==> !RowCrash(rows[j], refField, textField)
    ensures |r| < |rows| ==> RowCrash(rows[|r|], refField, textField)
  {
    if rows == [] then []
    else if RowCrash(rows[0], refField, textField) then []
    else
      var rest := UntilCrash(rows[1..], refField, textField);
      assert forall j :: 1 <= j < |rest| + 1 ==> rows[j] == rows[1..][j - 1];
      [rows[0]] + rest
  }

  /** The loop stops before row `i` when `i` is the first row that raises. */
  lemma UntilFirstCrash(rows: seq<Record>, refField: string, textField: string, i: nat)
    requires i <= |rows| && forall j :: 0 <= j < i ==> !RowCrash(rows[j], refField, textField)
    requires i < |rows| ==> RowCrash(rows[i], refField, textField)
    ensures UntilCrash(rows, refField, textField) == rows[..i]
  {
  }

  /** The receipt loop of the purchases and expenses scripts, for one row.
      A row with a true `receiptPath` and a text `slugField` names a
      temporary image and a PDF in `dir` after its ID and the slug of that
      field; the receipt is staged there, and uploaded to `folder` under
      the PDF's name when the download returned True, so that a new name
      holds the staged PDF on the drive. A row with a false reference is
      passed over; a row that raises changes nothing. */
  function ReceiptEffect(s: State, row: Record, slugField: string, dir: string, folder: nat,
                         fetch: string -> Option<Bytes>, convert: Bytes -> Option<Bytes>): (r: State)
    ensures r.folders == s.folders && s.remote <= r.remote && AddedPdfs(r.remote, |s.remote|, folder)
    ensures Under(AttachmentRoot, dir) ==> forall p :: !Under(AttachmentRoot, p) ==> Lookup(r.local, p) == Lookup(s.local, p)
    ensures !(Field(row, slugField).Text? && Delivers(Field(row, "receiptPath"), fetch, convert)) ==> r.remote == s.remote
    ensures Field(row, slugField).Text? ==>
              var name := ReceiptName(CellText(Field(row, "id")), Slug(Field(row, slugField).s));
              (Delivers(Field(row, "receiptPath"), fetch, convert) ==> FileExists(r.remote, name, folder)) &&
              (FileExists(s.remote, name, folder) ==> r.remote == s.remote)
    ensures !Truthy(Field(row, "receiptPath")) || !Field(row, slugField).Text? ==> r == s
    ensures Truthy(Field(row, "receiptPath")) && Field(row, slugField).Text? ==>
              var id := CellText(Field(row, "id"));
              var slug := Slug(Field(row, slugField).s);
              var pdfPath := Join(dir, ReceiptName(id, slug));
              r.local == Stage(s.local, Field(row, "receiptPath"), Join(dir, TempReceiptName(id, slug)), pdfPath,
                               fetch, convert).files &&
              (Delivers(Field(row, "receiptPath"), fetch, convert) && !FileExists(s.remote, ReceiptName(id, slug), folder) ==>
                 Stored(r.remote, ReceiptName(id, slug), folder) == Lookup(r.local, pdfPath))
  {
    var reference := Field(row, "receiptPath");
    if !Truthy(reference) || !Field(row, slugField).Text? then s
    else
      var id := CellText(Field(row, "id"));
      var slug := Slug(Field(row, slugField).s);
      var pdfPath := Join(dir, ReceiptName(id, slug));
      var imagePath := Join(dir, TempReceiptName(id, slug));
      var st := Stage(s.local, reference, imagePath, pdfPath, fetch, convert);
      TempReceiptIsNotReceipt(dir, id, slug);
      StageDelivers(s.local, reference, imagePath, pdfPath, fetch, convert);
      JoinUnder(AttachmentRoot, dir, TempReceiptName(id, slug));
      JoinUnder(AttachmentRoot, dir, ReceiptName(id, slug));
      if st.ok then
        UploadStores(s.remote, ReceiptName(id, slug), folder, Lookup(st.files, pdfPath));
        State(st.files, s.folders, Upload(s.remote, ReceiptName(id, slug), folder, Lookup(st.files, pdfPath)).1)
      else State(st.files, s.folders, s.remote)
  }

  /** The receipt loop over `rows`, one after another. */
  function Receipts(s: State, rows: seq<Record>, slugField: string, dir: string, folder: nat,
                    fetch: string -> Option<Bytes>, convert: Bytes -> Option<Bytes>): (r: State)
    ensures r.folders == s.folders && s.remote <= r.remote && AddedPdfs(r.remote, |s.remote|, folder)
    ensures Under(AttachmentRoot, dir) ==> forall p :: !Under(AttachmentRoot, p) ==> Lookup(r.local, p) == Lookup(s.local, p)
    decreases |rows|
  {
    if rows == [] then s
    else
      var mid := Receipts(s, rows[..|rows| - 1], slugField, dir, folder, fetch, convert);
      ReceiptEffect(mid, rows[|rows| - 1], slugField, dir, folder, fetch, convert)
  }

  method ReceiptStep(disk: Disk, drive: Drive, row: Record, slugField: string, dir: string, folder: nat,
                     fetch: string -> Option<Bytes>, convert: Bytes -> Option<Bytes>)
    returns (crashed: bool)
    requires drive.Valid()
    modifies disk, drive
    ensures drive.Valid()
    ensures StateOf(disk, drive) == ReceiptEffect(old(StateOf(disk, drive)), row, slugField, dir, folder, fetch, convert)
    ensures crashed <==> RowCrash(row, "receiptPath", slugField)
  {
    var reference := Field(row, "receiptPath");
    if !Truthy(reference) {
      return false;
    }
    var text := Field(row, slugField);
    if !text.Text? {
      return true;
    }
    var id := CellText(Field(row, "id"));
    var slug := Slug(text.s);
    var name := ReceiptName(id, slug);
    var imagePath := Join(dir, TempReceiptName(id, slug));
    var pdfPath := Join(dir, name);
    var ok := disk.Download(reference, imagePath, pdfPath, fetch, convert);
    if ok {
      var _ := drive.UploadToDrive(Lookup(disk.files, pdfPath), name, folder);
    }
    return false;
  }

  /** The receipt loop of the purchases and expenses scripts over one
      group: the rows up to the first one that raises. */
  method UploadReceipts(disk: Disk, drive: Drive, group: seq<Record>, slugField: string, dir: string, folder: nat,
                        fetch: string -> Option<Bytes>, convert: Bytes -> Option<Bytes>)
    returns (crashed: bool)
    requires drive.Valid()
    modifies disk, drive
    ensures drive.Valid()
    ensures StateOf(disk, drive) ==
              Receipts(old(StateOf(disk, drive)), UntilCrash(group, "receiptPath", slugField), slugField, dir, folder,
                       fetch, convert)
    ensures crashed <==> SlugCrash(group, "receiptPath", slugField)
  {
    var i := 0;
    while i < |group|
      invariant 0 <= i <= |group| && drive.Valid()
      invariant StateOf(disk, drive) == Receipts(old(StateOf(disk, drive)), group[..i], slugField, dir, folder, fetch, convert)
      invariant forall j :: 0 <= j < i ==> !RowCrash(group[j], "receiptPath", slugField)
    {
      crashed := ReceiptStep(disk, drive, group[i], slugField, dir, folder, fetch, convert);
      if crashed {
        UntilFirstCrash(group, "receiptPath", slugField, i);
        return;
      }
      assert group[..i + 1][..i] == group[..i];
      i := i + 1;
    }
    UntilFirstCrash(group, "receiptPath", slugField, i);
    assert group[..i] == group;
    return false;
  }

  /** Every delivered receipt of `rows` is in `folder` under its name. */
  predicate ReceiptsCovered(remote: seq<RemoteFile>, rows: seq<Record>, slugField: string, folder: nat,
                            fetch: string -> Option<Bytes>, convert: Bytes -> Option<Bytes>)
  {
    forall i :: 0 <= i < |rows| && Field(rows[i], slugField).Text? && Delivers(Field(rows[i], "receiptPath"), fetch, convert) ==>
      FileExists(remote, ReceiptName(CellText(Field(rows[i], "id")), Slug(Field(rows[i], slugField).s)), folder)
  }

  lemma {:induction false} ReceiptsCover(s: State, rows: seq<Record>, slugField: string, dir: string, folder: nat,
                                         fetch: string -> Option<Bytes>, convert: Bytes -> Option<Bytes>)
    ensures ReceiptsCovered(Receipts(s, rows, slugField, dir, folder, fetch, convert).remote, rows, slugField, folder,
                            fetch, convert)
    decreases |rows|
  {
    if rows != [] {
      var init, last := rows[..|rows| - 1], rows[|rows| - 1];
      var mid := Receipts(s, init, slugField, dir, folder, fetch, convert);
      var r := ReceiptEffect(mid, last, slugField, dir, folder, fetch, convert);
      ReceiptsCover(s, init, slugField, dir, folder, fetch, convert);
      forall i | 0 <= i < |rows| && Field(rows[i], slugField).Text? && Delivers(Field(rows[i], "receiptPath"), fetch, convert)
        ensures FileExists(r.remote, ReceiptName(CellText(Field(rows[i], "id")), Slug(Field(rows[i], slugField).s)), folder)
      {
        if i < |init| {
          assert rows[i] == init[i];
          FileExistsGrows(mid.remote, r.remote, ReceiptName(CellText(Field(rows[i], "id")), Slug(Field(rows[i], slugField).s)), folder);
        }
      }
    }
  }

  lemma {:induction false} CoveredReceiptsSkip(s: State, rows: seq<Record>, slugField: string, dir: string, folder: nat,
                                               fetch: string -> Option<Bytes>, convert: Bytes -> Option<Bytes>)
    requires ReceiptsCovered(s.remote, rows, slugField, folder, fetch, convert)
    ensures Receipts(s, rows, slugField, dir, folder, fetch, convert).remote == s.remote
    decreases |rows|
  {
    if rows != [] {
      var init, last := rows[..|rows| - 1], rows[|rows| - 1];
      assert forall i :: 0 <= i < |init| ==> init[i] == rows[i];
      CoveredReceiptsSkip(s, init, slugField, dir, folder, fetch, convert);
      assert last == rows[|rows| - 1];
    }
  }

  /** Running a group's receipt loop a second time uploads nothing: every
      receipt the first run delivered is already in its folder, and a file
      of that name is never uploaded again. */
  lemma ReceiptsRerun(s: State, rows: seq<Record>, slugField: string, dir: string, folder: nat,
                      fetch: string -> Option<Bytes>, convert: Bytes -> Option<Bytes>)
    ensures var once := Receipts(s, rows, slugField, dir, folder, fetch, convert);
            Receipts(once, rows, slugField, dir, folder, fetch, convert).remote == once.remote
  {
    ReceiptsCover(s, rows, slugField, dir, folder, fetch, convert);
    CoveredReceiptsSkip(Receipts(s, rows, slugField, dir, folder, fetch, convert), rows, slugField, dir, folder,
                        fetch, convert);
  }
}
