/** `sync_campaigns` of the campaign script: one statement per project and
    month, each campaign's image converted to PDF in a folder of its own,
    both mirrored to the drive. */
module CampaignSync {
  import opened Values
  import opened Naming
  import opened Partition
  import opened Ledger
  import opened Schemas
  import opened Attachments
  import opened Mirror
  import opened SyncSteps

  /** Campaigns are grouped by project and by the month of `created_date_time`. */
  const Projects: Grouping := Grouping("project", "created_date_time")

  const LedgerRoot: LedgerDir := "exports/Kampagnen/"

  /** The statement's local path. The project's text is used as it is,
      without replacing spaces. */
  function LedgerPath(project: string, period: string): (p: string)
    ensures Under(LedgerRoot, p)
  {
    LedgerRoot + (project + "/" + period + "/Kampagne_" + project + "_" + period + ".xlsx")
  }

  /** The directory holding the project's campaign folders, under the attachment root. */
  function ImagesDir(project: string, period: string): (d: string)
    ensures Under(AttachmentRoot, d)
  {
    AttachmentRoot + ("Kampagnen/" + period + "/Belege_Kampagne_" + project + "_" + period)
  }

  /** The drive folder holding a project's campaign folders for one month. */
  function ImagesFolderName(project: string, period: string): string
  {
    "Belege_Kampagne_" + project + "_" + period
  }

  /** Every file added from position `from` on is the PDF of a campaign
      folder directly under `parent`, named after that folder. */
  predicate AddedImages(folders: seq<Folder>, files: seq<RemoteFile>, from: nat, parent: nat)
  {
    forall j :: from <= j < |files| ==>
      files[j].folder < |folders| && folders[files[j].folder].parent == Some(parent) &&
      files[j].name == CampaignFileName(folders[files[j].folder].name)
  }

  lemma AddedImagesGrow(folders: seq<Folder>, more: seq<Folder>, files: seq<RemoteFile>, from: nat, parent: nat)
    requires folders <= more && AddedImages(folders, files, from, parent)
    ensures AddedImages(more, files, from, parent)
  {
    forall j | from <= j < |files|
      ensures files[j].folder < |more| && more[files[j].folder] == folders[files[j].folder]
    {
    }
  }

  /** The image loop for one campaign. A true image reference needs a text
      campaign name (anything else raises); the slug of the name names a
      drive folder under `parent` and a local directory under `mainDir`.
      The image is staged as `{slug}.pdf` there, and uploaded under that
      name to the campaign's folder when the download returned True, so
      that a new name holds the staged PDF on the drive. A campaign with a
      false reference, or one that raises, changes nothing. */
  function ImageEffect(s: State, row: Record, column: string, mainDir: string, parent: nat,
                       fetch: string -> Option<Bytes>, convert: Bytes -> Option<Bytes>): (r: State)
    ensures s.folders <= r.folders && s.remote <= r.remote
    ensures AddedImages(r.folders, r.remote, |s.remote|, parent)
    ensures Under(AttachmentRoot, mainDir) ==>
              forall p :: !Under(AttachmentRoot, p) ==> Lookup(r.local, p) == Lookup(s.local, p)
    ensures !(Truthy(Field(row, column)) && Field(row, "name").Text?) ==> r == s
    ensures Truthy(Field(row, column)) && Field(row, "name").Text? ==>
              var slug := Slug(Field(row, "name").s);
              var (folder, folders) := GetOrCreate(s.folders, slug, Some(parent));
              r.folders == folders &&
              (Delivers(Field(row, column), fetch, convert) ==> FileExists(r.remote, CampaignFileName(slug), folder)) &&
              (!Delivers(Field(row, column), fetch, convert) || FileExists(s.remote, CampaignFileName(slug), folder) ==>
                 r.remote == s.remote) &&
              var pdfPath := Join(Join(mainDir, slug), CampaignFileName(slug));
              r.local == Stage(s.local, Field(row, column), Join(Join(mainDir, slug), CampaignTempName(slug)), pdfPath,
                               fetch, convert).files &&
              (Delivers(Field(row, column), fetch, convert) && !FileExists(s.remote, CampaignFileName(slug), folder) ==>
                 Stored(r.remote, CampaignFileName(slug), folder) == Lookup(r.local, pdfPath))
  {
    var reference := Field(row, column);
    if !Truthy(reference) || !Field(row, "name").Text? then s
    else
      var slug := Slug(Field(row, "name").s);
      var dir := Join(mainDir, slug);
      var (folder, folders) := GetOrCreate(s.folders, slug, Some(parent));
      var imagePath := Join(dir, CampaignTempName(slug));
      var pdfPath := Join(dir, CampaignFileName(slug));
      var st := Stage(s.local, reference, imagePath, pdfPath, fetch, convert);
      CampaignTempIsNotFile(dir, slug);
      StageDelivers(s.local, reference, imagePath, pdfPath, fetch, convert);
      JoinUnder(AttachmentRoot, mainDir, slug);
      JoinUnder(AttachmentRoot, dir, CampaignTempName(slug));
      JoinUnder(AttachmentRoot, dir, CampaignFileName(slug));
      AddedImagesGrow(s.folders, folders, s.remote, |s.remote|, parent);
      if st.ok then
        var remote := Upload(s.remote, CampaignFileName(slug), folder, Lookup(st.files, pdfPath)).1;
        UploadStores(s.remote, CampaignFileName(slug), folder, Lookup(st.files, pdfPath));
        assert AddedImages(folders, remote, |s.remote|, parent) by {
          if remote != s.remote {
            assert remote[|s.remote|].folder == folder && remote[|s.remote|].name == CampaignFileName(slug);
          }
        }
        State(st.files, folders, remote)
      else State(st.files, folders, s.remote)
  }

  /** The image loop over `rows`, one campaign after another. */
  function Images(s: State, rows: seq<Record>, column: string, mainDir: string, parent: nat,
                  fetch: string -> Option<Bytes>, convert: Bytes -> Option<Bytes>): (r: State)
    ensures s.folders <= r.folders && s.remote <= r.remote
    ensures AddedImages(r.folders, r.remote, |s.remote|, parent)
    ensures Under(AttachmentRoot, mainDir) ==>
              forall p :: !Under(AttachmentRoot, p) ==> Lookup(r.local, p) == Lookup(s.local, p)
    decreases |rows|
  {
    if rows == [] then s
    else
      var mid := Images(s, rows[..|rows| - 1], column, mainDir, parent, fetch, convert);
      var r := ImageEffect(mid, rows[|rows| - 1], column, mainDir, parent, fetch, convert);
      AddedImagesGrow(mid.folders, r.folders, mid.remote, |s.remote|, parent);
      r
  }

  lemma ImagesNext(s: State, group: seq<Record>, i: nat, column: string, mainDir: string, parent: nat,
                   fetch: string -> Option<Bytes>, convert: Bytes -> Option<Bytes>)
    requires i < |group|
    ensures Images(s, group[..i + 1], column, mainDir, parent, fetch, convert) ==
            ImageEffect(Images(s, group[..i], column, mainDir, parent, fetch, convert), group[i], column, mainDir,
                        parent, fetch, convert)
  {
    assert group[..i + 1][..i] == group[..i];
  }

  method ImageStep(disk: Disk, drive: Drive, row: Record, column: string, mainDir: string, parent: nat,
                   fetch: string -> Option<Bytes>, convert: Bytes -> Option<Bytes>)
    returns (crashed: bool)
    requires drive.Valid()
    modifies disk, drive
    ensures drive.Valid()
    ensures StateOf(disk, drive) == ImageEffect(old(StateOf(disk, drive)), row, column, mainDir, parent, fetch, convert)
    ensures crashed <==> RowCrash(row, column, "name")
  {
    var reference := Field(row, column);
    if !Truthy(reference) {
      return false;
    }
    var name := Field(row, "name");
    if !name.Text? {
      return true;
    }
    var slug := Slug(name.s);
    var dir := Join(mainDir, slug);
    var folder := drive.GetOrCreateFolder(slug, Some(parent));
    var pdfPath := Join(dir, CampaignFileName(slug));
    var ok := disk.Download(reference, Join(dir, CampaignTempName(slug)), pdfPath, fetch, convert);
    if ok {
      var _ := drive.UploadToDrive(Lookup(disk.files, pdfPath), CampaignFileName(slug), folder);
    }
    return false;
  }

  /** The image loop over one group: the campaigns up to the first one
      that raises. */
  method UploadImages(disk: Disk, drive: Drive, group: seq<Record>, column: string, mainDir: string, parent: nat,
                      fetch: string -> Option<Bytes>, convert: Bytes -> Option<Bytes>)
    returns (crashed: bool)
    requires drive.Valid()
    modifies disk, drive
    ensures drive.Valid()
    ensures StateOf(disk, drive) ==
              Images(old(StateOf(disk, drive)), UntilCrash(group, column, "name"), column, mainDir, parent, fetch, convert)
    ensures crashed <==> SlugCrash(group, column, "name")
  {
    var i := 0;
    while i < |group|
      invariant 0 <= i <= |group| && drive.Valid()
      invariant StateOf(disk, drive) == Images(old(StateOf(disk, drive)), group[..i], column, mainDir, parent, fetch, convert)
      invariant forall j :: 0 <= j < i ==> !RowCrash(group[j], column, "name")
    {
      crashed := ImageStep(disk, drive, group[i], column, mainDir, parent, fetch, convert);
      if crashed {
        UntilFirstCrash(group, column, "name", i);
        return;
      }
      ImagesNext(old(StateOf(disk, drive)), group, i, column, mainDir, parent, fetch, convert);
      i := i + 1;
    }
    UntilFirstCrash(group, column, "name", i);
    assert group[..i] == group;
    return false;
  }

  /** Every campaign of `rows` with a true reference and a text name has
      its folder under `parent`, and a delivered image is in that folder. */
  predicate ImagesCovered(s: State, rows: seq<Record>, column: string, parent: nat,
                          fetch: string -> Option<Bytes>, convert: Bytes -> Option<Bytes>)
  {
    forall i :: 0 <= i < |rows| && Truthy(Field(rows[i], column)) && Field(rows[i], "name").Text? ==>
      var slug := Slug(Field(rows[i], "name").s);
      FindFolder(s.folders, slug, Some(parent)).Some? &&
      (Delivers(Field(rows[i], column), fetch, convert) ==>
         FileExists(s.remote, CampaignFileName(slug), FindFolder(s.folders, slug, Some(parent)).value))
  }

  lemma {:induction false} ImagesCover(s: State, rows: seq<Record>, column: string, mainDir: string, parent: nat,
                                       fetch: string -> Option<Bytes>, convert: Bytes -> Option<Bytes>)
    ensures ImagesCovered(Images(s, rows, column, mainDir, parent, fetch, convert), rows, column, parent, fetch, convert)
    decreases |rows|
  {
    if rows != [] {
      var init, last := rows[..|rows| - 1], rows[|rows| - 1];
      var mid := Images(s, init, column, mainDir, parent, fetch, convert);
      var r := ImageEffect(mid, last, column, mainDir, parent, fetch, convert);
      ImagesCover(s, init, column, mainDir, parent, fetch, convert);
      forall i | 0 <= i < |rows| && Truthy(Field(rows[i], column)) && Field(rows[i], "name").Text?
        ensures var slug := Slug(Field(rows[i], "name").s);
                FindFolder(r.folders, slug, Some(parent)).Some? &&
                (Delivers(Field(rows[i], column), fetch, convert) ==>
                   FileExists(r.remote, CampaignFileName(slug), FindFolder(r.folders, slug, Some(parent)).value))
      {
        var slug := Slug(Field(rows[i], "name").s);
        if i < |init| {
          assert rows[i] == init[i];
          FindFolderGrows(mid.folders, r.folders, slug, Some(parent));
          if Delivers(Field(rows[i], column), fetch, convert) {
            FileExistsGrows(mid.remote, r.remote, CampaignFileName(slug),
                            FindFolder(mid.folders, slug, Some(parent)).value);
          }
        } else {
          GetOrCreateFinds(mid.folders, slug, Some(parent));
        }
      }
    }
  }

  lemma {:induction false} CoveredImagesSkip(s: State, rows: seq<Record>, column: string, mainDir: string, parent: nat,
                                             fetch: string -> Option<Bytes>, convert: Bytes -> Option<Bytes>)
    requires ImagesCovered(s, rows, column, parent, fetch, convert)
    ensures var r := Images(s, rows, column, mainDir, parent, fetch, convert);
            r.folders == s.folders && r.remote == s.remote
    decreases |rows|
  {
    if rows != [] {
      var init, last := rows[..|rows| - 1], rows[|rows| - 1];
      assert forall i :: 0 <= i < |init| ==> init[i] == rows[i];
      CoveredImagesSkip(s, init, column, mainDir, parent, fetch, convert);
      var mid := Images(s, init, column, mainDir, parent, fetch, convert);
      if Truthy(Field(last, column)) && Field(last, "name").Text? {
        var slug := Slug(Field(last, "name").s);
        assert FindFolder(mid.folders, slug, Some(parent)).Some? by {
          assert last == rows[|rows| - 1];
        }
        assert GetOrCreate(mid.folders, slug, Some(parent)) ==
               (FindFolder(mid.folders, slug, Some(parent)).value, mid.folders);
      }
    }
  }

  /** Running a group's image loop a second time creates no folder and
      uploads nothing: each campaign's folder is found again, and every
      image the first run delivered is already in it. */
  lemma ImagesRerun(s: State, rows: seq<Record>, column: string, mainDir: string, parent: nat,
                    fetch: string -> Option<Bytes>, convert: Bytes -> Option<Bytes>)
    ensures var once := Images(s, rows, column, mainDir, parent, fetch, convert);
            var twice := Images(once, rows, column, mainDir, parent, fetch, convert);
            twice.folders == once.folders && twice.remote == once.remote
  {
    ImagesCover(s, rows, column, mainDir, parent, fetch, convert);
    CoveredImagesSkip(Images(s, rows, column, mainDir, parent, fetch, convert), rows, column, mainDir, parent,
                      fetch, convert);
  }

  /** The group's statement: the file at its path merged with the group's
      campaigns, under the five header lines. */
  function Statement(local: map<string, Blob>, project: string, period: string, group: seq<Record>): Blob
  {
    LedgerSheet(Campaigns, CampaignsHeader(project, period), Lookup(local, LedgerPath(project, period)),
                Rows(CampaignColumns, group), true)
  }

  /** The state after a group whose folders exist: the statement written
      and uploaded to the month folder, then, when the frame has an image
      column, the campaigns up to the first one that raises. */
  function Processed(s: State, image: Option<string>, monthFolder: nat, imagesFolder: nat, project: string,
                     period: string, group: seq<Record>, fetch: string -> Option<Bytes>,
                     convert: Bytes -> Option<Bytes>): (r: State)
    ensures Lookup(r.local, LedgerPath(project, period)) == Some(Statement(s.local, project, period, group))
    ensures forall p :: Under(LedgerRoot, p) && p != LedgerPath(project, period) ==> Lookup(r.local, p) == Lookup(s.local, p)
    ensures s.folders <= r.folders && s.remote <= r.remote
    ensures FileExists(r.remote, LastSegment(LedgerPath(project, period)), monthFolder)
    ensures image.None? ==>
              r.folders == s.folders && forall p :: p != LedgerPath(project, period) ==> Lookup(r.local, p) == Lookup(s.local, p)
  {
    var path := LedgerPath(project, period);
    var filed := Filed(s, Campaigns, CampaignsHeader(project, period), path, Rows(CampaignColumns, group), monthFolder);
    if image.None? then filed
    else
      var r := Images(filed, UntilCrash(group, image.value, "name"), image.value, ImagesDir(project, period), imagesFolder,
                      fetch, convert);
      LedgersUntouched(LedgerRoot, filed.local, r.local);
      FileExistsGrows(filed.remote, r.remote, LastSegment(path), monthFolder);
      r
  }

  /** The part of a group after its folders exist: the statement, its
      upload, and the images when there is an image column. */
  method StatementAndImages(image: Option<string>, drive: Drive, disk: Disk,
                            monthFolder: nat, imagesFolder: nat, project: string, period: string, group: seq<Record>,
                            fetch: string -> Option<Bytes>, convert: Bytes -> Option<Bytes>)
    returns (crashed: bool)
    requires drive.Valid()
    modifies drive, disk
    ensures drive.Valid()
    ensures StateOf(disk, drive) ==
              Processed(old(StateOf(disk, drive)), image, monthFolder, imagesFolder, project, period, group,
                        fetch, convert)
    ensures crashed <==> image.Some? && SlugCrash(group, image.value, "name")
  {
    FileLedger(disk, drive, Campaigns, CampaignsHeader(project, period), LedgerPath(project, period),
               Rows(CampaignColumns, group), monthFolder);
    if image.None? {
      return false;
    }
    crashed := UploadImages(disk, drive, group, image.value, ImagesDir(project, period), imagesFolder, fetch, convert);
  }

  /** A group raises: a selected column is missing, or there is an image
      column and a campaign with a true reference has a name that is not
      text. */
  predicate GroupCrash(frame: seq<Record>, image: Option<string>, group: seq<Record>)
  {
    !Selectable(frame, CampaignColumns) || (image.Some? && SlugCrash(group, image.value, "name"))
  }

  /** The state after one iteration of the group loop: the folders, then
      (when every selected column exists) the statement and the images. The
      project value is rendered as the f-strings render it. */
  function GroupSynced(s: State, frame: seq<Record>, image: Option<string>, campaigns: nat, receipts: nat,
                       project: string, period: string, group: seq<Record>, fetch: string -> Option<Bytes>,
                       convert: Bytes -> Option<Bytes>): (r: State)
    ensures s.folders <= r.folders && s.remote <= r.remote
    ensures forall p :: Under(LedgerRoot, p) && p != LedgerPath(project, period) ==> Lookup(r.local, p) == Lookup(s.local, p)
    ensures !Selectable(frame, CampaignColumns) ==> r.local == s.local && r.remote == s.remote
    ensures Selectable(frame, CampaignColumns) ==>
              Lookup(r.local, LedgerPath(project, period)) == Some(Statement(s.local, project, period, group))
  {
    var (monthFolder, imagesFolder, folders) :=
      GroupFolderIds(s.folders, campaigns, receipts, project, period, ImagesFolderName(project, period));
    var placed := s.(folders := folders);
    if !Selectable(frame, CampaignColumns) then placed
    else Processed(placed, image, monthFolder, imagesFolder, project, period, group, fetch, convert)
  }

  method SyncGroup(frame: seq<Record>, image: Option<string>, drive: Drive, disk: Disk, campaigns: nat, receipts: nat,
                   project: string, period: string, group: seq<Record>,
                   fetch: string -> Option<Bytes>, convert: Bytes -> Option<Bytes>)
    returns (crashed: bool)
    requires drive.Valid()
    modifies drive, disk
    ensures drive.Valid()
    ensures StateOf(disk, drive) ==
              GroupSynced(old(StateOf(disk, drive)), frame, image, campaigns, receipts, project, period, group,
                          fetch, convert)
    ensures crashed <==> GroupCrash(frame, image, group)
  {
    var monthFolder, imagesFolder :=
      GroupFolders(drive, campaigns, receipts, project, period, ImagesFolderName(project, period));
    if !Selectable(frame, CampaignColumns) {
      return true;
    }
    crashed := StatementAndImages(image, drive, disk, monthFolder, imagesFolder, project, period, group, fetch, convert);
  }

  /** A group that does not raise leaves its own statement balanced and
      every other one as it was. */
  lemma GroupBalanced(s: State, records: seq<Record>, image: Option<string>, campaigns: nat, receipts: nat,
                      k: LedgerKey, q: string, fetch: string -> Option<Bytes>, convert: Bytes -> Option<Bytes>)
    requires !GroupCrash(records, image, Group(Projects, records, k)) && Under(LedgerRoot, q)
    requires q != LedgerPath(CellText(k.group), k.period) ==> Balanced(Campaigns, Lookup(s.local, q))
    ensures Balanced(Campaigns, Lookup(GroupSynced(s, records, image, campaigns, receipts, CellText(k.group), k.period,
                                                   Group(Projects, records, k), fetch, convert).local, q))
  {
    var r := GroupSynced(s, records, image, campaigns, receipts, CellText(k.group), k.period,
                         Group(Projects, records, k), fetch, convert);
    if q == LedgerPath(CellText(k.group), k.period) {
      assert Lookup(r.local, q) == Some(Statement(s.local, CellText(k.group), k.period, Group(Projects, records, k)));
    } else {
      assert Lookup(r.local, q) == Lookup(s.local, q);
    }
  }

  /** One iteration of the group loop, as a step of the loop over the keys. */
  function Step(records: seq<Record>, image: Option<string>, campaigns: nat, receipts: nat,
                fetch: string -> Option<Bytes>, convert: Bytes -> Option<Bytes>): (State, LedgerKey) -> State
  {
    (t: State, k: LedgerKey) =>
      GroupSynced(t, records, image, campaigns, receipts, CellText(k.group), k.period, Group(Projects, records, k),
                  fetch, convert)
  }

  /** Whether the group of a key raises. */
  function Raises(records: seq<Record>, image: Option<string>): LedgerKey -> bool
  {
    (k: LedgerKey) => GroupCrash(records, image, Group(Projects, records, k))
  }

  /** The statement path of a key. */
  function KeyPath(k: LedgerKey): (p: string)
    ensures Under(LedgerRoot, p)
  {
    LedgerPath(CellText(k.group), k.period)
  }

  /** Every group keeps the statements apart and balances its own statement
      when it does not raise. */
  lemma StepKeepsLedgers(records: seq<Record>, image: Option<string>, campaigns: nat, receipts: nat,
                         fetch: string -> Option<Bytes>, convert: Bytes -> Option<Bytes>)
    ensures KeepsLedgers(Campaigns, LedgerRoot, Step(records, image, campaigns, receipts, fetch, convert),
                         Raises(records, image), Local, KeyPath)
  {
    forall t: State, k: LedgerKey | !GroupCrash(records, image, Group(Projects, records, k))
      ensures Balanced(Campaigns, Lookup(Step(records, image, campaigns, receipts, fetch, convert)(t, k).local,
                                         KeyPath(k)))
    {
      GroupBalanced(t, records, image, campaigns, receipts, k, KeyPath(k), fetch, convert);
    }
  }

  /** The group loop over the keys in order, up to and including the first
      group that raises; false when one raised. */
  method SyncKeys(records: seq<Record>, image: Option<string>, keys: seq<LedgerKey>, drive: Drive, disk: Disk,
                  campaigns: nat, receipts: nat, fetch: string -> Option<Bytes>, convert: Bytes -> Option<Bytes>)
    returns (completed: bool)
    requires drive.Valid()
    modifies drive, disk
    ensures drive.Valid()
    ensures StateOf(disk, drive) ==
              Loop(old(StateOf(disk, drive)), keys, Step(records, image, campaigns, receipts, fetch, convert),
                   Raises(records, image))
    ensures completed <==> Completes(keys, Raises(records, image))
  {
    ghost var step, raises := Step(records, image, campaigns, receipts, fetch, convert), Raises(records, image);
    ghost var final := Loop(StateOf(disk, drive), keys, step, raises);
    var i := 0;
    while i < |keys|
      invariant 0 <= i <= |keys| && drive.Valid()
      invariant Loop(StateOf(disk, drive), keys[i..], step, raises) == final
      invariant Completes(keys, raises) == Completes(keys[i..], raises)
    {
      var k := keys[i];
      assert keys[i..][1..] == keys[i + 1..];
      var crashed := SyncGroup(records, image, drive, disk, campaigns, receipts, CellText(k.group), k.period,
                               Group(Projects, records, k), fetch, convert);
      if crashed {
        return false;
      }
      i := i + 1;
    }
    return true;
  }

  /** What `sync_campaigns` ends with. */
  function Outcome(records: seq<Record>): RunOutcome
  {
    var columns := Columns(records);
    var image := FirstColumn(ImageColumns, columns);
    if records == [] || columns == {} then NoData
    else if "created_date_time" !in columns || "project" !in columns then Crashed
    else if exists k :: k in Keys(Projects, records) && GroupCrash(records, image, Group(Projects, records, k)) then Crashed
    else Completed
  }

  /** The state after `sync_campaigns`: nothing for an empty fetch or a
      missing timestamp column; the top-level folders, and then the groups
      up to the first that raises. */
  function Run(s: State, records: seq<Record>, fetch: string -> Option<Bytes>, convert: Bytes -> Option<Bytes>): State
  {
    var columns := Columns(records);
    if records == [] || columns == {} || "created_date_time" !in columns then s
    else
      var image := FirstColumn(ImageColumns, columns);
      var (campaigns, receipts, folders) := Roots(s.folders, "Kampagnen");
      var rooted := s.(folders := folders);
      if "project" !in columns then rooted
      else Loop(rooted, Keys(Projects, records), Step(records, image, campaigns, receipts, fetch, convert),
                Raises(records, image))
  }

  /** The loop over a frame's keys completes exactly when none of its
      groups raises. */
  lemma KeysComplete(records: seq<Record>, image: Option<string>)
    ensures Completes(Keys(Projects, records), Raises(records, image)) <==>
              forall k :: k in Keys(Projects, records) ==> !GroupCrash(records, image, Group(Projects, records, k))
  {
    var keys := Keys(Projects, records);
    CompletesIff(keys, Raises(records, image));
    if Completes(keys, Raises(records, image)) {
      forall k | k in keys ensures !GroupCrash(records, image, Group(Projects, records, k)) {
        var j :| 0 <= j < |keys| && keys[j] == k;
        assert !Raises(records, image)(keys[j]);
      }
    } else {
      var j :| 0 <= j < |keys| && Raises(records, image)(keys[j]);
      assert keys[j] in keys;
    }
  }

  /** A run that completes leaves every group's statement balanced. */
  lemma RunBalanced(s: State, records: seq<Record>, fetch: string -> Option<Bytes>, convert: Bytes -> Option<Bytes>)
    requires Outcome(records) == Completed
    ensures forall k :: k in Keys(Projects, records) ==>
              Balanced(Campaigns, Lookup(Run(s, records, fetch, convert).local, LedgerPath(CellText(k.group), k.period)))
  {
    var image := FirstColumn(ImageColumns, Columns(records));
    var (campaigns, receipts, folders) := Roots(s.folders, "Kampagnen");
    var keys := Keys(Projects, records);
    var rooted := s.(folders := folders);
    var step, raises := Step(records, image, campaigns, receipts, fetch, convert), Raises(records, image);
    KeysComplete(records, image);
    StepKeepsLedgers(records, image, campaigns, receipts, fetch, convert);
    forall k | k in keys
      ensures Balanced(Campaigns, Lookup(Run(s, records, fetch, convert).local, LedgerPath(CellText(k.group), k.period)))
    {
      var j :| 0 <= j < |keys| && keys[j] == k;
      LoopBalanced(Campaigns, LedgerRoot, rooted, keys, step, raises, Local, KeyPath, j);
    }
  }

  /** `sync_campaigns`: an empty fetch or an empty frame ends the run before
      any drive call; the image column is looked up before the timestamp
      is parsed; a missing timestamp or project column raises; otherwise
      every (project, period) group gets its statement and, when there is
      an image column, its campaign PDFs. */
  method SyncCampaigns(records: seq<Record>, drive: Drive, disk: Disk,
                       fetch: string -> Option<Bytes>, convert: Bytes -> Option<Bytes>)
    returns (outcome: RunOutcome)
    requires drive.Valid()
    modifies drive, disk
    ensures drive.Valid()
    ensures outcome == Outcome(records)
    ensures StateOf(disk, drive) == Run(old(StateOf(disk, drive)), records, fetch, convert)
    ensures outcome == Completed ==>
              forall k :: k in Keys(Projects, records) ==>
                Balanced(Campaigns, Lookup(disk.files, LedgerPath(CellText(k.group), k.period)))
  {
    var columns := Columns(records);
    if records == [] || columns == {} {
      return NoData;
    }
    var image := FindImageColumn(columns);
    if "created_date_time" !in columns {
      return Crashed;
    }
    var campaigns, receipts := RootFolders(drive, "Kampagnen");
    if "project" !in columns {
      return Crashed;
    }
    var keys := Keys(Projects, records);
    var completed := SyncKeys(records, image, keys, drive, disk, campaigns, receipts, fetch, convert);
    KeysComplete(records, image);
    if completed {
      RunBalanced(old(StateOf(disk, drive)), records, fetch, convert);
    }
    return if completed then Completed else Crashed;
  }
}
