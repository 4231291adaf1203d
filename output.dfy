/** Writing the filled-in workbook out: the `.xlsx` save with its overwrite
    protocol, the PDF and PNG conversions chained on it, and the `try...`
    wrappers that turn an `\Exception` into a `null` return. */
module Output {
  import opened Common

  type Bytes = seq<bv8>

  /** The local storage disk: every file under its root, keyed by its path
      relative to that root. The writer saves to `root + path`, which is
      the file the disk knows as `path`. */
  class Disk {
    var files: map<string, Bytes>

    constructor(files0: map<string, Bytes>)
      ensures files == files0
    {
      files := files0;
    }

    /** `$writer->save($root . $p)`: the file at `p` now holds `data`. */
    method Put(p: string, data: Bytes)
      modifies this
      ensures files == old(files)[p := data]
    {
      files := files[p := data];
    }

    /** What a writer that failed part-way through saving to `p` leaves
        there: some bytes, or no file at all. */
    method Leave(p: string, leftover: Option<Bytes>)
      modifies this
      ensures files == Left(old(files), p, leftover)
    {
      match leftover
      case None => files := files - {p};
      case Some(data) => files := files[p := data];
    }

    /** `$disk->delete($p)`: the file is gone; the answer says whether there
        was one to delete. A missing file is not an error. */
    method Delete(p: string) returns (deleted: bool)
      modifies this
      ensures deleted <==> p in old(files)
      ensures files == old(files) - {p}
    {
      deleted := p in files;
      files := files - {p};
    }

    /** `$disk->rename($from, $to)`, called only where a file sits at
        `from` and none at `to`. */
    method Rename(from: string, to: string)
      requires from in files && to !in files
      modifies this
      ensures files == (old(files) - {from})[to := old(files)[from]]
    {
      var data := files[from];
      files := (files - {from})[to := data];
    }
  }

  /** The files once a failing writer has left `leftover` at `p`. */
  function Left(files: map<string, Bytes>, p: string, leftover: Option<Bytes>): map<string, Bytes> {
    match leftover
    case None => files - {p}
    case Some(data) => files[p := data]
  }

  /* ---------------------------------------------------------------------
     The overwrite protocol, as a function of the disk's files.
     --------------------------------------------------------------------- */

  /** Where the workbook of `name` goes, relative to the disk's root. */
  function XlsxPath(dir: string, name: string): string { dir + name + ".xlsx" }

  /** The scratch file the overwrite protocol writes first. */
  function ScratchPath(dir: string, name: string): string { dir + name + "s.xlsx" }

  /** The scratch file and the workbook are never the same file. */
  lemma ScratchDiffers(dir: string, name: string)
    ensures ScratchPath(dir, name) != XlsxPath(dir, name)
  {
    var n := |dir + name|;
    assert ScratchPath(dir, name)[n] == 's';
    assert XlsxPath(dir, name)[n] == '.';
  }

  /** The protocol is taken when the workbook would land on the template
      it was loaded from, and that file was there when the session began.
      (PHP's `==` on these two strings is string equality: a path ending
      in `.xlsx` is never a numeric string.) */
  predicate Overwrites(template: string, dir: string, name: string, isExists: bool) {
    XlsxPath(dir, name) == template && isExists
  }

  /** The files after `_excelSave` with the serialised workbook `doc`: on
      the overwrite branch, write the scratch file, delete the workbook's
      path, and rename the scratch file onto it; otherwise write the path
      directly. */
  function SavedFiles(files: map<string, Bytes>, template: string, dir: string, name: string, isExists: bool, doc: Bytes): map<string, Bytes> {
    var path := XlsxPath(dir, name);
    if Overwrites(template, dir, name, isExists) then
      var scratch := ScratchPath(dir, name);
      var written := files[scratch := doc];
      var deleted := written - {path};
      ScratchDiffers(dir, name);
      (deleted - {scratch})[path := deleted[scratch]]
    else
      files[path := doc]
  }

  /** What the save amounts to: the workbook's path holds `doc` on both
      branches; the overwrite branch also leaves no file at the scratch
      path, even one that was there before the save; nothing else
      changes. */
  lemma SavedFilesAre(files: map<string, Bytes>, template: string, dir: string, name: string, isExists: bool, doc: Bytes)
    ensures SavedFiles(files, template, dir, name, isExists, doc) ==
      if Overwrites(template, dir, name, isExists)
      then (files - {ScratchPath(dir, name)})[XlsxPath(dir, name) := doc]
      else files[XlsxPath(dir, name) := doc]
  {
    ScratchDiffers(dir, name);
    var path, scratch := XlsxPath(dir, name), ScratchPath(dir, name);
    if Overwrites(template, dir, name, isExists) {
      var got := SavedFiles(files, template, dir, name, isExists, doc);
      var want := (files - {scratch})[path := doc];
      assert got.Keys == want.Keys;
      forall q | q in got ensures got[q] == want[q] {
      }
    }
  }

  /** The overwrite branch takes with it the workbook of the output named
      `name + "s"` in the same directory, since that workbook is the
      scratch file. */
  lemma OverwriteLosesSibling(files: map<string, Bytes>, dir: string, name: string, doc: Bytes)
    requires XlsxPath(dir, name + "s") in files
    ensures XlsxPath(dir, name + "s") !in SavedFiles(files, XlsxPath(dir, name), dir, name, true, doc)
  {
    SavedFilesAre(files, XlsxPath(dir, name), dir, name, true, doc);
    assert XlsxPath(dir, name + "s") == ScratchPath(dir, name);
  }

  /** The file the writer saves to: the scratch file on the overwrite
      branch, the workbook's own path otherwise. */
  function WriteTarget(template: string, dir: string, name: string, isExists: bool): string {
    if Overwrites(template, dir, name, isExists) then ScratchPath(dir, name) else XlsxPath(dir, name)
  }

  /** The files after `_excelSave` when the writer throws, having left
      `leftover` at its target: nothing after the failing `save` runs. */
  function FailedFiles(files: map<string, Bytes>, template: string, dir: string, name: string, isExists: bool,
                       leftover: Option<Bytes>): map<string, Bytes> {
    Left(files, WriteTarget(template, dir, name, isExists), leftover)
  }

  /** A failed save touches no file but the writer's target. */
  lemma FailedSaveKeeps(files: map<string, Bytes>, template: string, dir: string, name: string, isExists: bool,
                        leftover: Option<Bytes>, q: string)
    requires q != WriteTarget(template, dir, name, isExists)
    ensures var after := FailedFiles(files, template, dir, name, isExists, leftover);
      (q in after <==> q in files) && (q in files ==> after[q] == files[q])
  {
  }

  /** What the scratch file is for: when the save over the template fails,
      the template is still there, as it was. */
  lemma FailedOverwriteKeepsTemplate(files: map<string, Bytes>, template: string, dir: string, name: string,
                                     isExists: bool, leftover: Option<Bytes>)
    requires Overwrites(template, dir, name, isExists)
    ensures var after := FailedFiles(files, template, dir, name, isExists, leftover);
      (template in after <==> template in files) && (template in files ==> after[template] == files[template])
  {
    ScratchDiffers(dir, name);
    FailedSaveKeeps(files, template, dir, name, isExists, leftover, template);
  }

  /** Without the protocol a failed save can destroy the file it was to
      replace: the writer's target is the workbook's own path. */
  lemma FailedDirectSaveClobbers(files: map<string, Bytes>, template: string, dir: string, name: string, isExists: bool)
    requires !Overwrites(template, dir, name, isExists)
    ensures XlsxPath(dir, name) !in FailedFiles(files, template, dir, name, isExists, None)
  {
  }

  /* ---------------------------------------------------------------------
     The PDF step.
     --------------------------------------------------------------------- */

  /** The converter and its fixed flags, up to the output directory. */
  const ConvertFlags: string :=
    "export HOME=/tmp; /bin/libreoffice --headless --nologo --nofirststartwizard --convert-to pdf:writer_pdf_Export "

  /** The shell command `_pdfSave` hands to `exec`. */
  function ConvertCommand(storagePath: string, xlsx: string): string {
    ConvertFlags + "--outdir " + storagePath + " " + xlsx
  }

  /** The files after `_pdfSave`: the converter's effect on the saved
      files, given the command for the saved workbook. */
  function PdfFiles(files: map<string, Bytes>, template: string, root: string, dir: string, name: string, isExists: bool,
                    doc: Bytes, convert: (string, map<string, Bytes>) -> map<string, Bytes>): map<string, Bytes> {
    convert(ConvertCommand(root + dir, root + XlsxPath(dir, name)), SavedFiles(files, template, dir, name, isExists, doc))
  }

  /** The path `_pdfSave` returns. */
  function PdfPath(root: string, dir: string, name: string): string { root + dir + name + ".pdf" }

  /** The returned PDF path is the saved workbook's absolute path with its
      `.xlsx` extension swapped for `.pdf`, the name the converter gives
      its output in the output directory. */
  lemma PdfBesideWorkbook(root: string, dir: string, name: string)
    ensures var x := root + XlsxPath(dir, name);
      PdfPath(root, dir, name) == x[..|x| - 5] + ".pdf"
  {
    var x := root + XlsxPath(dir, name);
    assert x == (root + dir + name) + ".xlsx";
    assert x[..|x| - 5] == root + dir + name;
  }

  /* ---------------------------------------------------------------------
     The `try...` wrappers.
     --------------------------------------------------------------------- */

  /** `try { return $f(); } catch (\Exception $ex) { return null; }`: a
      result comes back as it is, an `\Exception` becomes `null`, and an
      `\Error` passes through uncaught. */
  function FailSoft<T>(o: Outcome<T>): (r: Outcome<Option<T>>)
    ensures r.Ok? && r.value.Some? <==> o.Ok?
    ensures o.Ok? ==> r.value.value == o.value
    ensures r == Ok(None) <==> o.Raised? && o.thrown.Exception?
    ensures r.Raised? <==> o.Raised? && o.thrown.Error?
    ensures r.Raised? ==> r.thrown == o.thrown
  {
    match o
    case Ok(v) => Ok(Some(v))
    case Raised(e) => if e.Exception? then Ok(None) else Raised(e)
  }

  /* ---------------------------------------------------------------------
     The session object.
     --------------------------------------------------------------------- */

  /** One `CreateExcel` session. The workbook in memory is not modelled:
      what the writer would produce from it is handed to each save as
      `doc`, an outcome because the writer may throw, and what a throwing
      writer leaves at its target as `leftover`. */
  class CreateExcel {
    const disk: Disk
    /** The disk's root prefix, `full_path`. */
    const fullPath: string
    const templatePath: string
    const outDir: string
    var outputFileName: string
    /** Whether the workbook's file existed when the session began. */
    const isExists: bool

    /** `__construct`: the existence of the workbook's file is looked up
        once, here. */
    constructor(disk: Disk, fullPath: string, templatePath: string, outDir: string, name: string)
      ensures this.disk == disk && this.fullPath == fullPath && this.templatePath == templatePath
      ensures this.outDir == outDir && outputFileName == name
      ensures isExists <==> XlsxPath(outDir, name) in disk.files
    {
      this.disk := disk;
      this.fullPath := fullPath;
      this.templatePath := templatePath;
      this.outDir := outDir;
      outputFileName := name;
      isExists := XlsxPath(outDir, name) in disk.files;
    }

    /** `setOutputFileName`: the name changes; `isExists`, a constant of the
        session, still says whether the old name's file existed. */
    method SetOutputFileName(name: string)
      modifies this
      ensures outputFileName == name
    {
      outputFileName := name;
    }

    /** `_excelSave`: save the workbook where its name puts it and return
        its absolute path. */
    method ExcelSave(doc: Outcome<Bytes>, leftover: Option<Bytes>) returns (r: Outcome<string>)
      modifies disk
      ensures r.Raised? <==> doc.Raised?
      ensures r.Raised? ==> r.thrown == doc.thrown
      ensures r.Raised? ==> disk.files == FailedFiles(old(disk.files), templatePath, outDir, outputFileName, isExists, leftover)
      ensures r.Ok? ==> r.value == fullPath + XlsxPath(outDir, outputFileName)
      ensures r.Ok? ==> disk.files == SavedFiles(old(disk.files), templatePath, outDir, outputFileName, isExists, doc.value)
    {
      var path := outDir + outputFileName + ".xlsx";
      if path == templatePath && isExists {
        var newPath := outDir + outputFileName + "s.xlsx";
        if doc.Raised? {
          disk.Leave(newPath, leftover);
          return Raised(doc.thrown);
        }
        disk.Put(newPath, doc.value);
        var deleted := disk.Delete(path);
        ScratchDiffers(outDir, outputFileName);
        disk.Rename(newPath, path);
      } else {
        if doc.Raised? {
          disk.Leave(path, leftover);
          return Raised(doc.thrown);
        }
        disk.Put(path, doc.value);
      }
      return Ok(fullPath + path);
    }

    /** `_pdfSave`: save the workbook, run the converter on it (its effect
        on the files is `convert`), and return where the PDF should be,
        whatever the converter did. */
    method PdfSave(doc: Outcome<Bytes>, leftover: Option<Bytes>, convert: (string, map<string, Bytes>) -> map<string, Bytes>)
      returns (r: Outcome<string>)
      modifies disk
      ensures r.Raised? <==> doc.Raised?
      ensures r.Raised? ==> r.thrown == doc.thrown
      ensures r.Raised? ==> disk.files == FailedFiles(old(disk.files), templatePath, outDir, outputFileName, isExists, leftover)
      ensures r.Ok? ==> r.value == PdfPath(fullPath, outDir, outputFileName)
      ensures r.Ok? ==> disk.files == PdfFiles(old(disk.files), templatePath, fullPath, outDir, outputFileName, isExists, doc.value, convert)
    {
      var excelFilePath := ExcelSave(doc, leftover);
      if excelFilePath.Raised? {
        return Raised(excelFilePath.thrown);
      }
      var storagePath := fullPath + outDir;
      var command := ConvertCommand(storagePath, excelFilePath.value);
      disk.files := convert(command, disk.files);
      return Ok(storagePath + outputFileName + ".pdf");
    }

    /** `_pngSave`: make the PDF, then hand its path, the output directory
        and the name to the PNG step `toPng`. */
    method PngSave<R>(doc: Outcome<Bytes>, leftover: Option<Bytes>, convert: (string, map<string, Bytes>) -> map<string, Bytes>,
                      toPng: (string, string, string) -> Outcome<R>) returns (r: Outcome<R>)
      modifies disk
      ensures doc.Raised? ==> r == Raised(doc.thrown)
      ensures doc.Raised? ==> disk.files == FailedFiles(old(disk.files), templatePath, outDir, outputFileName, isExists, leftover)
      ensures doc.Ok? ==> r == toPng(PdfPath(fullPath, outDir, outputFileName), fullPath + outDir, outputFileName)
      ensures doc.Ok? ==> disk.files == PdfFiles(old(disk.files), templatePath, fullPath, outDir, outputFileName, isExists, doc.value, convert)
    {
      var pdfFilePath := PdfSave(doc, leftover, convert);
      if pdfFilePath.Raised? {
        return Raised(pdfFilePath.thrown);
      }
      var storagePath := fullPath + outDir;
      r := toPng(pdfFilePath.value, storagePath, outputFileName);
    }

    /** `tryCreateXls`. */
    method TryCreateXls(doc: Outcome<Bytes>, leftover: Option<Bytes>) returns (r: Outcome<Option<string>>)
      modifies disk
      ensures r == FailSoft(if doc.Ok? then Ok(fullPath + XlsxPath(outDir, outputFileName)) else Raised(doc.thrown))
      ensures doc.Raised? ==> disk.files == FailedFiles(old(disk.files), templatePath, outDir, outputFileName, isExists, leftover)
      ensures doc.Ok? ==> disk.files == SavedFiles(old(disk.files), templatePath, outDir, outputFileName, isExists, doc.value)
    {
      var x := ExcelSave(doc, leftover);
      r := FailSoft(x);
    }

    /** `tryCreatePdf`. */
    method TryCreatePdf(doc: Outcome<Bytes>, leftover: Option<Bytes>, convert: (string, map<string, Bytes>) -> map<string, Bytes>)
      returns (r: Outcome<Option<string>>)
      modifies disk
      ensures r == FailSoft(if doc.Ok? then Ok(PdfPath(fullPath, outDir, outputFileName)) else Raised(doc.thrown))
      ensures doc.Raised? ==> disk.files == FailedFiles(old(disk.files), templatePath, outDir, outputFileName, isExists, leftover)
      ensures doc.Ok? ==> disk.files == PdfFiles(old(disk.files), templatePath, fullPath, outDir, outputFileName, isExists, doc.value, convert)
    {
      var x := PdfSave(doc, leftover, convert);
      r := FailSoft(x);
    }

    /** `tryCreatePng`. */
    method TryCreatePng<R>(doc: Outcome<Bytes>, leftover: Option<Bytes>, convert: (string, map<string, Bytes>) -> map<string, Bytes>,
                           toPng: (string, string, string) -> Outcome<R>) returns (r: Outcome<Option<R>>)
      modifies disk
      ensures r == FailSoft(if doc.Ok? then toPng(PdfPath(fullPath, outDir, outputFileName), fullPath + outDir, outputFileName) else Raised(doc.thrown))
      ensures doc.Raised? ==> disk.files == FailedFiles(old(disk.files), templatePath, outDir, outputFileName, isExists, leftover)
      ensures doc.Ok? ==> disk.files == PdfFiles(old(disk.files), templatePath, fullPath, outDir, outputFileName, isExists, doc.value, convert)
    {
      var x := PngSave(doc, leftover, convert, toPng);
      r := FailSoft(x);
    }
  }
}
