/** The remote mirror: folders and files on the drive, `get_or_create_folder`,
    `file_exists_in_drive` and `upload_to_drive`. The store is kept in
    memory; a folder's id is its position in the creation order, and a
    listing returns matches in that order. */
module Mirror {
  import opened Values

  /** A folder: its name and its parent's id (None for a top-level folder). */
  datatype Folder = Folder(name: string, parent: Option<nat>)

  /** A file: its name, the id of its folder and its contents. */
  datatype RemoteFile = RemoteFile(name: string, folder: nat, content: Blob)

  /** The folder query: the name must match; the parent must match only when
      one is given. A query without a parent matches a folder of that name at
      any depth. */
  predicate Matches(f: Folder, name: string, parent: Option<nat>)
  {
    f.name == name && (parent.Some? ==> f.parent == parent)
  }

  /** The first folder from position `from` on that the query matches. */
  function FindFrom(folders: seq<Folder>, name: string, parent: Option<nat>, from: nat): (r: Option<nat>)
    requires from <= |folders|
    ensures r.Some? ==> from <= r.value < |folders| && Matches(folders[r.value], name, parent) &&
                        forall j :: from <= j < r.value ==> !Matches(folders[j], name, parent)
    ensures r.None? ==> forall j :: from <= j < |folders| ==> !Matches(folders[j], name, parent)
    decreases |folders| - from
  {
    if from == |folders| then None
    else if Matches(folders[from], name, parent) then Some(from)
    else FindFrom(folders, name, parent, from + 1)
  }

  /** The id the listing returns first, if any folder matches. */
  function FindFolder(folders: seq<Folder>, name: string, parent: Option<nat>): Option<nat>
  {
    FindFrom(folders, name, parent, 0)
  }

  /** The result of `get_or_create_folder`: the first matching folder's id
      with the store unchanged, or else the id of exactly one new folder. */
  function GetOrCreate(folders: seq<Folder>, name: string, parent: Option<nat>): (r: (nat, seq<Folder>))
    ensures r.0 < |r.1| && Matches(r.1[r.0], name, parent) && folders <= r.1
    ensures (exists j :: 0 <= j < |folders| && Matches(folders[j], name, parent)) ==>
              r.1 == folders && forall j :: 0 <= j < r.0 ==> !Matches(folders[j], name, parent)
    ensures (forall j :: 0 <= j < |folders| ==> !Matches(folders[j], name, parent)) ==>
              r == (|folders|, folders + [Folder(name, parent)])
  {
    match FindFolder(folders, name, parent)
    case Some(id) => (id, folders)
    case None => (|folders|, folders + [Folder(name, parent)])
  }

  /** Asking for the same folder twice returns the same id and creates
      nothing the second time. */
  lemma GetOrCreateTwice(folders: seq<Folder>, name: string, parent: Option<nat>)
    ensures var (id, after) := GetOrCreate(folders, name, parent);
            GetOrCreate(after, name, parent) == (id, after)
  {
    var (id, after) := GetOrCreate(folders, name, parent);
    assert forall j :: 0 <= j < id ==> j < |folders| && after[j] == folders[j];
  }

  /** After `get_or_create_folder`, the listing finds the folder it returned. */
  lemma GetOrCreateFinds(folders: seq<Folder>, name: string, parent: Option<nat>)
    ensures var (id, after) := GetOrCreate(folders, name, parent);
            FindFolder(after, name, parent) == Some(id)
  {
    GetOrCreateTwice(folders, name, parent);
  }

  /** Creating more folders never changes what a query that already
      matched returns. */
  lemma FindFolderGrows(folders: seq<Folder>, more: seq<Folder>, name: string, parent: Option<nat>)
    requires folders <= more && FindFolder(folders, name, parent).Some?
    ensures FindFolder(more, name, parent) == FindFolder(folders, name, parent)
  {
    var id := FindFolder(folders, name, parent).value;
    assert more[id] == folders[id];
  }

  /** The folder at position `i`. Uniqueness is stated through it, so that
      it applies only to the positions a proof names. */
  function FolderAt(folders: seq<Folder>, i: nat): Folder
    requires i < |folders|
  {
    folders[i]
  }

  /** No two folders share a name and a parent. */
  predicate UniqueFolders(folders: seq<Folder>)
  {
    forall i, j :: 0 <= i < j < |folders| ==> FolderAt(folders, i) != FolderAt(folders, j)
  }

  lemma GetOrCreateKeepsUnique(folders: seq<Folder>, name: string, parent: Option<nat>)
    requires UniqueFolders(folders)
    ensures UniqueFolders(GetOrCreate(folders, name, parent).1)
  {
    var after := GetOrCreate(folders, name, parent).1;
    if after != folders {
      forall i, j | 0 <= i < j < |after| ensures FolderAt(after, i) != FolderAt(after, j) {
        assert FolderAt(after, i) == FolderAt(folders, i);
        if j < |folders| {
          assert FolderAt(after, j) == FolderAt(folders, j);
        } else {
          assert !Matches(folders[i], name, parent);
        }
      }
    }
  }

  /** A top-level query is answered by a nested folder of the same name: with
      only `Belege/Einkäufe` on the drive, asking for the top-level
      `Einkäufe` returns the nested folder and creates nothing. */
  lemma TopLevelQueryFindsNestedFolder()
    ensures var folders := [Folder("Belege", None), Folder("Einkäufe", Some(0))];
            GetOrCreate(folders, "Einkäufe", None) == (1, folders) && folders[1].parent == Some(0)
  {
    var folders := [Folder("Belege", None), Folder("Einkäufe", Some(0))];
    assert !Matches(folders[0], "Einkäufe", None);
  }

  /** Folder `id` is named `name` and sits in a folder named `parentName`
      whose own parent is `grandparent`. */
  predicate NestedFolder(folders: seq<Folder>, id: nat, name: string, parentName: string, grandparent: nat)
  {
    id < |folders| && folders[id].name == name && folders[id].parent.Some? &&
    folders[id].parent.value < |folders| && folders[folders[id].parent.value] == Folder(parentName, Some(grandparent))
  }

  /** Creating more folders keeps every existing folder where it was. */
  lemma NestedFolderGrows(folders: seq<Folder>, more: seq<Folder>, id: nat, name: string, parentName: string,
                          grandparent: nat)
    requires folders <= more && NestedFolder(folders, id, name, parentName, grandparent)
    ensures NestedFolder(more, id, name, parentName, grandparent)
  {
    assert more[id] == folders[id];
    assert more[folders[id].parent.value] == folders[folders[id].parent.value];
  }

  /** `file_exists_in_drive`: some file of that name is in that folder. */
  predicate FileExists(files: seq<RemoteFile>, name: string, folder: nat)
  {
    exists i :: 0 <= i < |files| && files[i].name == name && files[i].folder == folder
  }

  /** A file is in its folder after an upload with local contents. */
  lemma UploadStores(files: seq<RemoteFile>, name: string, folder: nat, local: Option<Blob>)
    requires local.Some?
    ensures FileExists(Upload(files, name, folder, local).1, name, folder)
    ensures !FileExists(files, name, folder) ==> Stored(Upload(files, name, folder, local).1, name, folder) == local
  {
    var after := Upload(files, name, folder, local).1;
    if !FileExists(files, name, folder) {
      assert after[|files|] == RemoteFile(name, folder, local.value);
      StoredLast(files, RemoteFile(name, folder, local.value));
    }
  }

  /** Uploading more files keeps every existing name in its folder. */
  lemma FileExistsGrows(files: seq<RemoteFile>, more: seq<RemoteFile>, name: string, folder: nat)
    requires files <= more && FileExists(files, name, folder)
    ensures FileExists(more, name, folder)
  {
    var i :| 0 <= i < |files| && files[i].name == name && files[i].folder == folder;
    assert more[i] == files[i];
  }

  /** The contents stored under a name in a folder (the first such file). */
  function Stored(files: seq<RemoteFile>, name: string, folder: nat): (r: Option<Blob>)
    ensures r.Some? <==> FileExists(files, name, folder)
  {
    if files == [] then None
    else if files[0].name == name && files[0].folder == folder then Some(files[0].content)
    else
      var r := Stored(files[1..], name, folder);
      assert FileExists(files[1..], name, folder) ==> FileExists(files, name, folder) by {
        if FileExists(files[1..], name, folder) {
          var i :| 0 <= i < |files[1..]| && files[1..][i].name == name && files[1..][i].folder == folder;
          assert files[i + 1] == files[1..][i];
        }
      }
      r
  }

  datatype UploadOutcome = Skipped | Uploaded | Failed

  /** `upload_to_drive`: skipped when the folder already has a file of that
      name, failed (inside the `try`) when the local file is missing, and
      otherwise exactly one file created with the local contents. */
  function Upload(files: seq<RemoteFile>, name: string, folder: nat, local: Option<Blob>): (r: (UploadOutcome, seq<RemoteFile>))
    ensures FileExists(files, name, folder) <==> r.0 == Skipped
    ensures r.0 != Uploaded ==> r.1 == files
    ensures files <= r.1
    ensures r.0 == Uploaded <==> !FileExists(files, name, folder) && local.Some?
    ensures r.0 == Uploaded ==> r.1 == files + [RemoteFile(name, folder, local.value)]
  {
    if FileExists(files, name, folder) then (Skipped, files)
    else if local.None? then (Failed, files)
    else (Uploaded, files + [RemoteFile(name, folder, local.value)])
  }

  /** A second identical upload creates nothing. */
  lemma UploadTwice(files: seq<RemoteFile>, name: string, folder: nat, local: Option<Blob>)
    ensures var (outcome, after) := Upload(files, name, folder, local);
            outcome != Failed ==> Upload(after, name, folder, local) == (Skipped, after)
  {
    var (outcome, after) := Upload(files, name, folder, local);
    if outcome == Uploaded {
      assert after[|files|].name == name && after[|files|].folder == folder;
    }
  }

  /** An upload never replaces remote contents: once a name exists in a
      folder, its stored contents stay what the first upload sent, whatever
      the local file holds now. A ledger rewritten locally on a later run is
      therefore not refreshed on the drive. */
  lemma UploadNeverOverwrites(files: seq<RemoteFile>, name: string, folder: nat, n: string, d: nat, local: Option<Blob>)
    requires FileExists(files, name, folder)
    ensures Stored(Upload(files, n, d, local).1, name, folder) == Stored(files, name, folder)
  {
    var after := Upload(files, n, d, local).1;
    StoredPrefix(files, after[|files|..], name, folder);
    assert after == files + after[|files|..];
  }

  lemma {:induction false} StoredPrefix(files: seq<RemoteFile>, more: seq<RemoteFile>, name: string, folder: nat)
    requires FileExists(files, name, folder)
    ensures Stored(files + more, name, folder) == Stored(files, name, folder)
  {
    if !(files[0].name == name && files[0].folder == folder) {
      assert (files + more)[1..] == files[1..] + more;
      var i :| 0 <= i < |files| && files[i].name == name && files[i].folder == folder;
      assert files[1..][i - 1] == files[i];
      StoredPrefix(files[1..], more, name, folder);
    }
  }

  /** After uploading a ledger once and again with new contents, the drive
      still holds the first contents. */
  lemma RemoteLedgerFrozen(files: seq<RemoteFile>, name: string, folder: nat, first: Blob, second: Blob)
    requires !FileExists(files, name, folder)
    ensures var once := Upload(files, name, folder, Some(first)).1;
            Stored(Upload(once, name, folder, Some(second)).1, name, folder) == Some(first)
  {
    var once := Upload(files, name, folder, Some(first)).1;
    assert once == files + [RemoteFile(name, folder, first)];
    assert once[|files|].name == name && once[|files|].folder == folder;
    StoredLast(files, RemoteFile(name, folder, first));
    UploadNeverOverwrites(once, name, folder, name, folder, Some(second));
  }

  lemma {:induction false} StoredLast(files: seq<RemoteFile>, f: RemoteFile)
    requires !FileExists(files, f.name, f.folder)
    ensures Stored(files + [f], f.name, f.folder) == Some(f.content)
  {
    if files != [] {
      assert (files + [f])[1..] == files[1..] + [f];
      assert !FileExists(files[1..], f.name, f.folder) by {
        forall i | 0 <= i < |files[1..]| ensures !(files[1..][i].name == f.name && files[1..][i].folder == f.folder) {
          assert files[1..][i] == files[i + 1];
        }
      }
      StoredLast(files[1..], f);
    }
  }

  /** The name and folder of the file at position `i`. Uniqueness is stated
      through it, so that it applies only to the positions a proof names. */
  function PlaceAt(files: seq<RemoteFile>, i: nat): (string, nat)
    requires i < |files|
  {
    (files[i].name, files[i].folder)
  }

  /** No folder holds two files of the same name. */
  predicate UniqueFiles(files: seq<RemoteFile>)
  {
    forall i, j :: 0 <= i < j < |files| ==> PlaceAt(files, i) != PlaceAt(files, j)
  }

  lemma UploadKeepsUnique(files: seq<RemoteFile>, name: string, folder: nat, local: Option<Blob>)
    requires UniqueFiles(files)
    ensures UniqueFiles(Upload(files, name, folder, local).1)
  {
    var (outcome, after) := Upload(files, name, folder, local);
    if outcome == Uploaded {
      forall i, j | 0 <= i < j < |after| ensures PlaceAt(after, i) != PlaceAt(after, j) {
        assert PlaceAt(after, i) == PlaceAt(files, i);
        if j < |files| {
          assert PlaceAt(after, j) == PlaceAt(files, j);
        }
      }
    }
  }

  /** The drive of one account, changed in place by the three operations. */
  class Drive {
    var folders: seq<Folder>
    var files: seq<RemoteFile>

    predicate Valid()
      reads this
    {
      UniqueFolders(folders) && UniqueFiles(files)
    }

    constructor ()
      ensures Valid() && folders == [] && files == []
    {
      folders := [];
      files := [];
    }

    /** List the matching folders, return the first, or create one. */
    method GetOrCreateFolder(name: string, parent: Option<nat>) returns (id: nat)
      requires Valid()
      modifies this
      ensures Valid()
      ensures (id, folders) == GetOrCreate(old(folders), name, parent)
      ensures files == old(files)
    {
      var i := 0;
      while i < |folders|
        invariant 0 <= i <= |folders|
        invariant forall j :: 0 <= j < i ==> !Matches(folders[j], name, parent)
      {
        if Matches(folders[i], name, parent) {
          assert FindFrom(folders, name, parent, 0) == Some(i);
          return i;
        }
        i := i + 1;
      }
      GetOrCreateKeepsUnique(folders, name, parent);
      id := |folders|;
      folders := folders + [Folder(name, parent)];
    }

    /** Whether the folder already holds a file of that name. */
    method FileExistsInDrive(name: string, folder: nat) returns (found: bool)
      ensures found == FileExists(files, name, folder)
    {
      found := false;
      var i := 0;
      while i < |files|
        invariant 0 <= i <= |files|
        invariant forall j :: 0 <= j < i ==> !(files[j].name == name && files[j].folder == folder)
      {
        if files[i].name == name && files[i].folder == folder {
          return true;
        }
        i := i + 1;
      }
    }

    /** Upload the local contents unless the name is already taken in the folder. */
    method UploadToDrive(local: Option<Blob>, name: string, folder: nat) returns (outcome: UploadOutcome)
      requires Valid()
      modifies this
      ensures Valid()
      ensures (outcome, files) == Upload(old(files), name, folder, local)
      ensures folders == old(folders)
    {
      var taken := FileExistsInDrive(name, folder);
      if taken {
        return Skipped;
      }
      if local.None? {
        return Failed;
      }
      UploadKeepsUnique(files, name, folder, local);
      files := files + [RemoteFile(name, folder, local.value)];
      outcome := Uploaded;
    }
  }
}
