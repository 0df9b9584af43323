/** Attachments on the local disk: fetching a stored receipt or campaign
    image, keeping it as a PDF or converting it to one, and the earlier
    script's plain download. The storage request and the image-to-PDF
    converter are parameters. */
module Attachments {
  import opened Values
  import opened Naming

  /** Python truthiness of a field value: empty text, zero and an empty
      cell are false. */
  predicate Truthy(c: Cell)
  {
    match c
    case Text(s) => s != ""
    case Amount(n) => n != 0
    case Null => false
  }

  /** The outcome of one download: the returned flag and the files afterwards. */
  datatype Staged = Staged(ok: bool, files: map<string, Blob>)

  /** `download_receipt` and `download_image` of the three sync scripts. A
      false (empty) reference returns False before any request. A reference
      that is not text fails inside the `try` (its `.lower()` raises before
      anything is written). A failed request returns False. A reference whose
      lowercased form ends in `.pdf` is stored as it is. Any other reference
      is written to the image path, the PDF path is opened (and so emptied)
      before the converter runs, the converter's output lands in the PDF and
      the image is removed; when the converter fails, the image and an empty
      PDF stay behind. */
  function Stage(files: map<string, Blob>, reference: Cell, imagePath: string, pdfPath: string,
                 fetch: string -> Option<Bytes>, convert: Bytes -> Option<Bytes>): (st: Staged)
    ensures !Truthy(reference) || !reference.Text? ==> st == Staged(false, files)
    ensures reference.Text? && fetch(reference.s).None? ==> st == Staged(false, files)
    ensures st.ok <==>
              Truthy(reference) && reference.Text? && fetch(reference.s).Some? &&
              (IsPdfPath(reference.s) || convert(if imagePath == pdfPath then [] else fetch(reference.s).value).Some?)
    ensures Truthy(reference) && reference.Text? && fetch(reference.s).Some? && IsPdfPath(reference.s) ==>
              st.files == files[pdfPath := Data(fetch(reference.s).value)]
    ensures imagePath != pdfPath && Truthy(reference) && reference.Text? && fetch(reference.s).Some? &&
            !IsPdfPath(reference.s) ==>
              (match convert(fetch(reference.s).value)
               case Some(pdf) => st.ok && imagePath !in st.files && Lookup(st.files, pdfPath) == Some(Data(pdf))
               case None => !st.ok && Lookup(st.files, imagePath) == Some(Data(fetch(reference.s).value)) &&
                            Lookup(st.files, pdfPath) == Some(Data([])))
    ensures forall p :: p != imagePath && p != pdfPath ==> Lookup(st.files, p) == Lookup(files, p)
  {
    if !Truthy(reference) || !reference.Text? then Staged(false, files)
    else
      match fetch(reference.s)
      case None => Staged(false, files)
      case Some(bytes) =>
        if IsPdfPath(reference.s) then Staged(true, files[pdfPath := Data(bytes)])
        else
          var written := files[imagePath := Data(bytes)][pdfPath := Data([])];
          (match convert(written[imagePath].bytes)
           case None => Staged(false, written)
           case Some(pdf) => Staged(true, written[pdfPath := Data(pdf)] - {imagePath}))
  }

  /** The local files of one run. */
  class Disk {
    var files: map<string, Blob>

    constructor (initial: map<string, Blob>)
      ensures files == initial
    {
      files := initial;
    }

    /** Write (or overwrite) one file. */
    method Save(path: string, blob: Blob)
      modifies this
      ensures files == old(files)[path := blob]
    {
      files := files[path := blob];
    }

    /** One attachment download, step by step as the scripts perform it. */
    method Download(reference: Cell, imagePath: string, pdfPath: string,
                    fetch: string -> Option<Bytes>, convert: Bytes -> Option<Bytes>) returns (ok: bool)
      modifies this
      ensures Staged(ok, files) == Stage(old(files), reference, imagePath, pdfPath, fetch, convert)
    {
      ok := false;
      if !Truthy(reference) || !reference.Text? {
        return;
      }
      var response := fetch(reference.s);
      if response.None? {
        return;
      }
      if IsPdfPath(reference.s) {
        files := files[pdfPath := Data(response.value)];
        ok := true;
        return;
      }
      files := files[imagePath := Data(response.value)];
      files := files[pdfPath := Data([])];
      var converted := convert(files[imagePath].bytes);
      if converted.None? {
        return;
      }
      files := files[pdfPath := Data(converted.value)];
      files := files - {imagePath};
      ok := true;
    }

    /** `download_receipt` of the earlier script: the bytes go to the local
        path when the path is non-empty and the request succeeds; nothing is
        written otherwise. */
    method DownloadTo(reference: string, localPath: string, fetch: string -> Option<Bytes>)
      modifies this
      ensures files == Fetched(old(files), reference, localPath, fetch)
    {
      if reference != "" {
        var response := fetch(reference);
        if response.Some? {
          files := files[localPath := Data(response.value)];
        }
      }
    }
  }

  /** The files after the earlier script's download. */
  function Fetched(files: map<string, Blob>, reference: string, localPath: string,
                   fetch: string -> Option<Bytes>): (r: map<string, Blob>)
    ensures reference == "" || fetch(reference).None? ==> r == files
    ensures reference != "" && fetch(reference).Some? ==>
              Lookup(r, localPath) == Some(Data(fetch(reference).value))
    ensures forall p :: p != localPath ==> Lookup(r, p) == Lookup(files, p)
  {
    if reference != "" && fetch(reference).Some? then files[localPath := Data(fetch(reference).value)] else files
  }
}
