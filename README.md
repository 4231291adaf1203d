# Range cloning and output saving of `CreateExcel`

This project models the template engine of `CreateExcel.php` in Dafny and
proves properties of that model. The engine has two halves.

- **Range cloning.** It reads a rectangle of a worksheet into an in-memory
  block with `rangeToCellArray`, which captures each cell's style through
  `getFormArray`. It then pastes that block at an anchor cell with
  `pasteCellArray`. `copyRange` chains the two.
- **Output.** It saves the filled-in workbook as `.xlsx` with
  `_excelSave`. A workbook that would land on the template it was loaded from
  is overwritten through a scratch file. It then converts to PDF and PNG with
  `_pdfSave` and `_pngSave`. The `tryCreate...` wrappers turn an
  `\Exception` into a `null` return.

The model is organised by the source's structure:

- `address.dfy`: the two address patterns, `^([A-Z]+)(\d+)$` and
  `^([A-Z]+)(\d+):([A-Z]+)(\d+)$`, as a greedy scan.
  - Both are proved to match exactly the texts of well-formed references.
  - Column letters are read as a bijective base-26 numeral.
- `styles.dfy`: `getFormArray` as a nested-array builder (`FormArray`).
  - `ApplyForm` is a reference reading of such an array: a present key sets
    its field, a missing key keeps it.
  - The array is proved complete but for one key: applied over any style,
    it yields the style it was read from in every field except the
    diagonal direction, which the cell keeps (`KeepDiagonal`).
- `sheet.dfy`: the worksheet as a value (`SheetState`), with the five
  worksheet calls the engine makes (`Op`).
  - `Apply` gives the meaning of a sequence of calls.
  - `Worksheet` is the mutable object, with a ghost log of the calls made on
    it.
- `blocks.dfy`: the block as an ordered PHP array of ordered PHP arrays. Each
  entry keeps its key.
- `extract.dfy`: `rangeToCellArray`, as the nested loops (`ReadRect`),
  proved against the rectangle they build (`Rect`).
- `paste.dfy`: `pasteCellArray`, as the nested `foreach` loops with their
  `$rowCount` / `$colCount` counters.
  - The loops are proved to make exactly the calls `PasteOps`.
  - Lemmas then say what those calls leave in the sheet:
    - which cell's value and style lands where;
    - widths once per column, right after auto-size is switched off;
    - heights once per row;
    - nothing outside the block changes.
- `copy.dfy`: `copyRange`, with its failure on a malformed range.
  - A copy is proved to reproduce the source's values, styles, widths and
    heights at the anchor's offset.
- `output.dfy`: the disk, the overwrite protocol as a function of the disk's
  files, and the `CreateExcel` session object with its save, conversion and
  `try...` methods.

Three behaviours of the code are easy to miss, and the model keeps all three:

- **A malformed range raises an error.** `copyRange` on a range that does
  not match the pattern does not quietly do nothing:
  - `rangeToCellArray` returns nothing (`null`);
  - `copyRange` hands that `null` to the `array $cellArray` parameter of
    `pasteCellArray`;
  - PHP therefore throws a `TypeError`. That is an `\Error`, which
    `catch (\Exception ...)` does not intercept.

  `Copy` and `CopyRange` model that failure.
- **The paste subtracts one.** The cell at offset (r, c) of the block is
  written at column `anchor column + c - 1`, row `anchor row + r`
  (CreateExcel.php:292). The extractor likewise subtracts one from both
  column bounds (CreateExcel.php:241-242). Both are kept exactly as written
  (`DestColumn`, `RangeBounds`).
- **A pasted style keeps the destination's diagonal direction.**
  `getFormArray` files the diagonal direction under `diagonaldirection`
  (CreateExcel.php:192). The library's `applyFromArray` looks for
  `diagonalDirection`, so it never reads that entry. A copied cell gets
  every other style field of its source, and keeps its own diagonal
  direction (`DiagonalDirectionLost`).

Column numbers in the model are the integers the PHP hands to the
worksheet's column accessors. For any column base that maps distinct
indices to distinct columns, a copy moves the cell `j` columns into the
range to the anchor's `DestColumn(col, j)`. That is what `CopyReproduces`
proves. A base that aliases two indices is outside this: with the
one-based `stringFromColumnIndex`, index 0 renders as `Z`, the same column
as index 26.

The workbook's in-memory content, the spreadsheet library, the converter and
the PNG step are not modelled. They appear as parameters instead:

- `doc`: what the writer would save, or what it throws;
- `convert`: the converter's effect on the disk's files;
- `toPng`: the outcome of the PNG step.

## Model

| member | source | states |
|---|---|---|
| `Address.ColumnIndex` | CreateExcel.php:241-242 | a column letter string has a positive index exactly when it is non-empty (`A` = 1) |
| `Address.ColumnIndexOfString` | CreateExcel.php:294 | rendering a column index as letters and reading them back gives the index again |
| `Address.ColumnStringOfIndex` | CreateExcel.php:241-242 | reading column letters and rendering the index gives the same letters: the two conversions are inverse |
| `Address.ParseCell` | CreateExcel.php:273-275 | a match of the cell pattern yields a well-formed reference whose text is exactly the input |
| `Address.ParseRange` | CreateExcel.php:229-236 | a match of the range pattern yields two well-formed corners whose text, joined by `:`, is exactly the input |
| `Address.ParseCellText` | CreateExcel.php:273-275 | every well-formed cell reference's text matches the cell pattern and yields that reference back |
| `Address.ParseCellIff` | CreateExcel.php:273-275 | the cell pattern yields `c` from `s` if and only if `c` is well formed and its text is `s` |
| `Address.ParseRangeText` | CreateExcel.php:229-236 | every well-formed range's text matches the range pattern and yields that range back |
| `Address.ParseRangeIff` | CreateExcel.php:229-236 | the range pattern yields `r` from `s` if and only if `r` is well formed and its text is `s` |
| `Address.DashedRangeRejected` | CreateExcel.php:229-231 | a range written with a dash, `A1-B2`, does not match |
| `Styles.ApplyEmptyForm` | CreateExcel.php:299 | an empty array applied to a style leaves it unchanged, which is why the array must name every field |
| `Styles.FormArrayRoundTrip` | CreateExcel.php:138-217 | the array `getFormArray` builds, applied over a cell of any style, gives that cell the style it was read from in every field except the diagonal direction, which the cell keeps |
| `Styles.FontRoundTrip` | CreateExcel.php:142-159 | the `font` sub-array restores the name, size, bold, italic, underline, strikethrough and colour it was read from |
| `Styles.BorderRoundTrip` | CreateExcel.php:162-167 | one border's sub-array restores its border style and colour |
| `Styles.BordersRoundTrip` | CreateExcel.php:161-193 | the `borders` sub-array restores all five borders; the diagonal direction, filed under a key the reader does not look for, stays as it was |
| `Styles.DiagonalDirectionLost` | CreateExcel.php:192 | when a cell's diagonal direction differs from the copied style's, applying that style's array does not give the cell the copied style |
| `Styles.AlignmentRoundTrip` | CreateExcel.php:195-201 | the `alignment` sub-array restores horizontal, vertical, rotation, wrap and shrink-to-fit |
| `Styles.FillRoundTrip` | CreateExcel.php:206-214 | the `fill` sub-array restores fill type and both colours |
| `Styles.FormArrayInjective` | CreateExcel.php:138-217 | two styles with the same array are the same style |
| `Sheet.ApplyStyleIsApplyForm` | CreateExcel.php:299 | the model's `ApplyStyle` call leaves a cell the style that applying the `getFormArray` array over its current style gives |
| `Sheet.ApplyAppend` | CreateExcel.php:288-317 | making calls `a` and then calls `b` leaves the sheet that making `a + b` does |
| `Sheet.ApplyValueAt` | CreateExcel.php:295-297 | after a sequence of calls a cell holds the value last written to it, or its old value if none was |
| `Sheet.ApplyStyleAt` | CreateExcel.php:298-300 | after a sequence of calls a cell has the style last applied to it, with the cell's original diagonal direction, or its old style if none was applied |
| `Sheet.ApplyWidthAt` | CreateExcel.php:303-306 | after a sequence of calls a column has the auto-size flag and width last set for it, or its old ones |
| `Sheet.ApplyHeightAt` | CreateExcel.php:309-311 | after a sequence of calls a row has the height last set for it, or its old one |
| `Sheet.ApplyKeepsDefaults` | CreateExcel.php:288-317 | no call changes the sheet's default style, width or height |
| `Sheet.Worksheet.SetCellValue` | CreateExcel.php:296 | the call is logged and the sheet's value at the cell becomes the given value |
| `Sheet.Worksheet.ApplyStyle` | CreateExcel.php:299 | the call is logged and the cell's style becomes what the given style's array makes of its current one: the given style with the cell's own diagonal direction |
| `Sheet.Worksheet.SetAutoSize` | CreateExcel.php:304 | the call is logged and the column's auto-size flag is set |
| `Sheet.Worksheet.SetWidth` | CreateExcel.php:305 | the call is logged and the column's width is set |
| `Sheet.Worksheet.SetRowHeight` | CreateExcel.php:310 | the call is logged and the row's height is set |
| `Blocks.FindConsecutive` | CreateExcel.php:250 | in an ordered array with keys `lo, lo + 1, ...`, `$a[$key]` is the entry at offset `key - lo` if there is one, and missing otherwise |
| `RangeExtract.RowRecords` | CreateExcel.php:247-255 | a row of the block holds one record per working column |
| `RangeExtract.Rect` | CreateExcel.php:246-257 | the block has one row per range row when there is a working column, and no rows at all otherwise |
| `RangeExtract.ExtractRejects` | CreateExcel.php:229-231 | the extractor returns nothing exactly when the range does not match the pattern, `A1-B2` among them |
| `RangeExtract.ExtractOf` | CreateExcel.php:229-258 | a well-formed range's text yields the block of its rectangle, rows as written, columns less one |
| `RangeExtract.ExtractLookup` | CreateExcel.php:246-255 | `$block[$row][$col]` exists exactly for the range's rows and working columns, and holds that cell's value, style, column width and row height |
| `RangeExtract.ExtractOrder` | CreateExcel.php:241-258 | rows come in increasing order from the first row, one per range row (none when there is no working column); each row holds the working columns in increasing order |
| `RangeExtract.RangeToCellArray` | CreateExcel.php:226-259 | the method returns nothing for a malformed range and otherwise the block of the sheet's rectangle |
| `RangeExtract.ReadRect` | CreateExcel.php:244-258 | the nested loops build the rectangle row by row, a row entry appearing only with its first cell |
| `RangePaste.OptionDefaults` | CreateExcel.php:276-282 | an unset option is on; a set option is on only when it is exactly `true`; with no options both are on |
| `RangePaste.PasteOps` | CreateExcel.php:273-275 | an anchor that does not match the cell pattern makes no calls |
| `RangePaste.PasteRejectsAnchor` | CreateExcel.php:273-275 | a malformed anchor leaves the sheet exactly as it was |
| `RangePaste.BlockValues` | CreateExcel.php:288-297 | the last value the paste writes at a cell is that of the one block cell mapped there, if `withValue` is on, and none otherwise |
| `RangePaste.BlockStyles` | CreateExcel.php:288-300 | the last style the paste applies at a cell is that of the one block cell mapped there, if `withStyle` is on, and none otherwise |
| `RangePaste.BlockWidthQueries` | CreateExcel.php:302-306 | each destination column of the first block row gets auto-size off and that cell's width, set exactly once; no other column is touched |
| `RangePaste.BlockHeightQueries` | CreateExcel.php:308-311 | each destination row gets the height of its first cell, set exactly once; no other row is touched |
| `RangePaste.BlockOrder` | CreateExcel.php:303-305 | every width the paste sets comes right after auto-size was switched off for that column |
| `RangePaste.PasteCells` | CreateExcel.php:284-300 | the block cell at position (i, j) lands at row `anchorRow + i`, column `anchorColumn + j - 1`; it is the only one to land there; value and style follow the options, the style keeping the destination's diagonal direction, and every other cell keeps its own |
| `RangePaste.PasteStyles` | CreateExcel.php:298-300 | a cell's style after the paste is the style of the block cell that lands there, with the cell's own diagonal direction, when `withStyle` is on, and its old style otherwise |
| `RangePaste.PasteKeepsOutside` | CreateExcel.php:288-300 | a cell no block cell lands on keeps its value and its style |
| `RangePaste.PasteDimensions` | CreateExcel.php:302-311 | widths once per column from the first block row, with auto-size off; heights once per row from each row's first cell; untouched columns and rows keep theirs |
| `RangePaste.PasteKeepsDefaults` | CreateExcel.php:288-317 | the paste leaves the sheet's defaults alone |
| `RangePaste.PasteIgnoresKeys` | CreateExcel.php:288-292 | the paste walks by position: two blocks with the same records in the same places, whatever their keys, make the same calls |
| `RangePaste.PasteCellArray` | CreateExcel.php:270-319 | the method makes exactly the calls `PasteOps` for the matched anchor and options, and leaves the sheet those calls make |
| `RangePaste.PasteBlock` | CreateExcel.php:287-317 | the outer loop makes the calls of every row of the block, in order |
| `RangePaste.PasteRow` | CreateExcel.php:288-316 | one pass of the outer loop adds the calls of that row's cells |
| `RangePaste.PasteCell` | CreateExcel.php:291-313 | one pass of the inner loop adds the calls of one cell |
| `RangePaste.PasteValue` | CreateExcel.php:295-297 | the value is written only when `withValue` is on |
| `RangePaste.PasteStyle` | CreateExcel.php:298-300 | the style is applied only when `withStyle` is on |
| `RangePaste.PasteWidth` | CreateExcel.php:302-306 | auto-size off and then the width, only in the first block row |
| `RangePaste.PasteHeight` | CreateExcel.php:308-311 | the row height, only for the first cell of a row |
| `RangeCopy.Copy` | CreateExcel.php:329-335 | a copy throws exactly when the range does not match, and what it throws is the `TypeError`; a copy to a malformed anchor changes nothing |
| `RangeCopy.CopyRejectsRange` | CreateExcel.php:329-335 | a dashed range makes the copy throw, and not with an `\Exception` |
| `RangeCopy.CopyOf` | CreateExcel.php:329-335 | a copy from a well-formed range to a well-formed anchor pastes the block of that range with default options |
| `RangeCopy.PasteReproduces` | CreateExcel.php:241-311 | pasting a range's block puts at the anchor's offset the source cell's value and its style in every field but the diagonal direction, and the source column's width and row's height, with auto-size off |
| `RangeCopy.CopyReproduces` | CreateExcel.php:329-335 | a copy reproduces the source's value, style (but for the diagonal direction, which the destination keeps), width and height at the anchor's offset |
| `RangeCopy.CopyKeepsOutside` | CreateExcel.php:329-335 | outside the destination rectangle a copy leaves values and styles alone |
| `RangeCopy.CopyRange` | CreateExcel.php:329-335 | the method throws exactly when the range does not match, making no sheet call, and otherwise leaves the sheet `Copy` gives |
| `Output.ScratchDiffers` | CreateExcel.php:350-352 | the scratch file `name + "s.xlsx"` is never the workbook's own path |
| `Output.SavedFilesAre` | CreateExcel.php:347-362 | on both branches the workbook's path ends up holding the saved workbook; the overwrite branch also leaves no file at the scratch path; nothing else changes |
| `Output.OverwriteLosesSibling` | CreateExcel.php:351-356 | overwriting the template `name` removes the workbook of an output named `name + "s"` in the same directory |
| `Output.FailedSaveKeeps` | CreateExcel.php:351-359 | a save whose writer throws touches no file but the writer's target: the scratch file on the overwrite branch, the workbook's path otherwise |
| `Output.FailedOverwriteKeepsTemplate` | CreateExcel.php:352-356 | when the writer throws on the overwrite branch, the template is still there with its old contents, since the writer's target is the scratch file |
| `Output.FailedDirectSaveClobbers` | CreateExcel.php:357-359 | off the overwrite branch a throwing writer can leave no file at the workbook's path, whatever was there before |
| `Output.PdfBesideWorkbook` | CreateExcel.php:372-385 | the returned PDF path is the saved workbook's absolute path with `.xlsx` replaced by `.pdf` |
| `Output.FailSoft` | CreateExcel.php:441-446 | a result comes back as it is, an `\Exception` becomes `null`, and an `\Error` passes through uncaught |
| `Output.Disk.Put` | CreateExcel.php:354 | the file at the path holds the written bytes; nothing else changes |
| `Output.Disk.Leave` | CreateExcel.php:354-358 | the path holds what a writer that threw part-way left there, or no file; nothing else changes |
| `Output.Disk.Delete` | CreateExcel.php:355 | the file is gone, and the answer says whether it was there |
| `Output.Disk.Rename` | CreateExcel.php:356 | the file moves to the new path; nothing else changes |
| `Output.CreateExcel.constructor` | CreateExcel.php:56-75 | the session records whether the workbook's file exists, once, at construction |
| `Output.CreateExcel.SetOutputFileName` | CreateExcel.php:105-108 | the name changes and the existence flag, looked up for the old name, is not refreshed |
| `Output.CreateExcel.ExcelSave` | CreateExcel.php:347-362 | a writer failure propagates, and the disk is then `FailedFiles`: only the writer's target has changed; otherwise the disk is `SavedFiles` and the result is the root plus the workbook's path |
| `Output.CreateExcel.PdfSave` | CreateExcel.php:369-386 | an `.xlsx` failure propagates with the disk as the failed save leaves it; otherwise the converter runs on the saved files with the command for the saved path (`PdfFiles`), and the PDF path is returned whatever it did |
| `Output.CreateExcel.PngSave` | CreateExcel.php:393-401 | an `.xlsx` failure propagates with the disk as the failed save leaves it; otherwise the disk is `PdfFiles`, and the PNG step, given the PDF path, the output directory and the name, gives the result |
| `Output.CreateExcel.TryCreateXls` | CreateExcel.php:438-447 | the save's path, or `null` for an `\Exception`, with an `\Error` passing through; the disk is `SavedFiles` after a save and `FailedFiles` after a failure |
| `Output.CreateExcel.TryCreatePdf` | CreateExcel.php:454-463 | the PDF path, or `null` for an `\Exception`, with an `\Error` passing through; the disk is `PdfFiles` after a save and `FailedFiles` after a failure |
| `Output.CreateExcel.TryCreatePng` | CreateExcel.php:470-479 | the PNG step's result, or `null` for an `\Exception`, with an `\Error` passing through; the disk is `PdfFiles` after a save and `FailedFiles` after a failure |

## Left out

- **The spreadsheet library.** The library itself (`IOFactory::load`, the
  `Xlsx` writer, cell and dimension objects) is not modelled.
  - The sheet is a value of maps.
  - The template's loading in the constructor is not modelled, nor its
    possible failure.
  - The writer's output and its failure are the `doc` parameter.
  - What a writer that throws part-way leaves at its target is the
    `leftover` parameter: some bytes or no file. The model lets it touch
    only that target.
- **`columnIndexFromString` and `stringFromColumnIndex`.** They are specified
  only as bijective base-26 numerals. The paste addresses cells by
  (column index, row) directly; it does not go through the address string
  that `stringFromColumnIndex` builds at CreateExcel.php:294. The column base
  the library gives its accessors, including what happens at column index 0,
  is not modelled.
- **`applyFromArray` on partial arrays.** A record's style is kept as the
  style descriptor itself. The model's style call sets what applying its
  complete `getFormArray` array sets: every field but the diagonal
  direction (`Sheet.ApplyStyleIsApplyForm`). A hand-built block with
  partial style arrays is not modelled.
- **Style fields `getFormArray` does not read.** Protection and the
  library's other style fields are not part of `Style`.
- Address.ColumnIndex: accepts column strings of any length. The library's
  `columnIndexFromString` throws an `\Exception` for more than three
  letters, so a range such as `AAAA1:B2` raises in the library where the
  model reads a column.
- Styles.FormArrayRoundTrip: colours are plain strings, so the round trip
  does not see that font and border colours are read with `getRGB`
  (CreateExcel.php:157, 165-189) and lose their alpha on a copy, while fill
  colours are read with `getARGB` (CreateExcel.php:209, 212) and keep it.
- **Row keys with leading zeros.** A block row's key is the integer row.
  PHP keeps the first row's key as the digit string written, when it is not
  canonical (`A007:B9`). The paste walks by position, so the result is the
  same (`PasteIgnoresKeys`). Only `$block[$row]` lookups on such a key
  differ.
- **Row numbers past `PHP_INT_MAX`.** Rows are unbounded integers. In PHP,
  `$destRowStart + $rowCount` (CreateExcel.php:289) and `$row++`
  (CreateExcel.php:246) turn into floats past `PHP_INT_MAX`. The library's
  limit of 1048576 rows keeps real sheets far below that.
- **The regular expressions' `$`.** `$` also accepts one trailing newline.
  The model's patterns reject it.
- **The converter.** `exec` and LibreOffice are not modelled.
  - Their effect on the files is the `convert` parameter.
  - Shell quoting of paths with spaces is not modelled.
  - `MstProc::pdfToPng` is the `toPng` parameter, and its effect on the disk
    is not modelled.
- **Storage.** Laravel's `Storage` disk is a map from relative paths to
  bytes.
  - `getPathPrefix` is the session's `fullPath`.
  - A `delete` of a missing file is not an error.
  - `Output.Disk.Rename` requires its source to exist and its target not
    to, and `ExcelSave` proves it calls it only so. The adapter's exceptions
    for the other cases are not modelled.
- **Overridable hooks.** `createXls`, `createPdf` and `createPng` are
  overridable, and the model calls the base behaviour directly.
  `Log::debug`, `set_time_limit`, the title and name getters and setters
  other than `setOutputFileName`, and `getSpreadSheetIndexByName` are left
  out. They are logging, time limits, or accessors with no logic.
- **Concurrency.** Another process changing the files between the existence
  check and the save is reflected only in that the flag is a snapshot.
  Concurrent sessions are not modelled.
