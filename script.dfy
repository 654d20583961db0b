/** Merge_timesheets.py, the command-line script the applications grew out
    of. The client list and the week folder name are read from the console;
    every ledger row from row 4 on whose column B names a listed client is
    processed: in each month folder of the client (in listing order) that
    holds the week folder, the last listed invoice PDF and the timesheets
    beside it are merged into {invoice root}_.pdf, and the path merged last
    is written to column G of that same row. A merge that raises is not
    caught and ends the script before the workbook is saved. */
module Script {
  import opened Text
  import opened Pages
  import opened Disk
  import opened Merge
  import opened Ledger

  // ---------------------------------------------------------------------
  // The client list
  // ---------------------------------------------------------------------

  /** clients_to_process: the input split on commas, each part stripped. */
  function ParseClients(input: string): seq<string>
  {
    StripAll(Split(input, ','))
  }

  function StripAll(parts: seq<string>): (r: seq<string>)
    ensures |r| == |parts|
  {
    if parts == [] then [] else StripAll(parts[..|parts| - 1]) + [Strip(parts[|parts| - 1])]
  }

  /** One client per comma-separated part, none holding a comma or white
      space at either end. */
  lemma ParseClientsSpec(input: string)
    ensures var r := ParseClients(input);
            |r| == |Split(input, ',')| && |r| >= 1
            && (forall i :: 0 <= i < |r| ==> ',' !in r[i])
            && (forall i :: 0 <= i < |r| ==> r[i] == [] || (!IsSpace(r[i][0]) && !IsSpace(r[i][|r[i]| - 1])))
  {
    var parts := Split(input, ',');
    var r := ParseClients(input);
    StripAllIndex(parts);
    forall i | 0 <= i < |r|
      ensures ',' !in r[i]
      ensures r[i] == [] || (!IsSpace(r[i][0]) && !IsSpace(r[i][|r[i]| - 1]))
    {
      StripKeepsOut(parts[i], ',');
      StripEnds(parts[i]);
    }
  }

  /** Input whose parts carry no surrounding white space is given back by
      joining the clients with commas. */
  lemma ParseClientsRoundTrip(input: string)
    requires forall i :: 0 <= i < |Split(input, ',')| ==> Strip(Split(input, ',')[i]) == Split(input, ',')[i]
    ensures JoinWith(ParseClients(input), ',') == input
  {
    var parts := Split(input, ',');
    StripAllIndex(parts);
    assert ParseClients(input) == parts;
    SplitJoin(input, ',');
  }

  /** Stripping adds no character. */
  lemma StripKeepsOut(s: string, c: char)
    requires c !in s
    ensures c !in Strip(s)
  {
    StripSpec(s);
    var a, b :| 0 <= a <= b <= |s| && Strip(s) == s[a..b];
    assert forall k :: 0 <= k < b - a ==> s[a..b][k] == s[a + k];
  }

  lemma {:induction false} StripAllIndex(parts: seq<string>)
    ensures forall i :: 0 <= i < |parts| ==> StripAll(parts)[i] == Strip(parts[i])
  {
    if parts != [] {
      StripAllIndex(parts[..|parts| - 1]);
    }
  }

  // ---------------------------------------------------------------------
  // Which rows are processed
  // ---------------------------------------------------------------------

  /** `not client_name or client_name not in clients_to_process` is false:
      column B holds a non-empty text listed exactly as typed. */
  predicate Selected(name: Cell, clients: seq<string>)
  {
    name.Text? && name.s != [] && name.s in clients
  }

  // ---------------------------------------------------------------------
  // The listing of a week folder
  // ---------------------------------------------------------------------

  /** An entry the script takes as the invoice. */
  predicate InvoiceEntry(f: string)
  {
    EndsWith(Lower(f), ".pdf") && Contains(Lower(f), "invoice")
  }

  /** An entry the script takes as a timesheet. */
  predicate SheetEntry(f: string)
  {
    var l := Lower(f);
    !InvoiceEntry(f)
    && (EndsWith(l, ".pdf") || EndsWith(l, ".jpg") || EndsWith(l, ".jpeg") || EndsWith(l, ".png")
        || EndsWith(l, ".docx") || EndsWith(l, ".doc"))
  }

  datatype Listing = Listing(invoice: Option<string>, sheets: seq<string>)

  /** The loop over os.listdir: invoice_file is reassigned at every invoice
      entry, timesheet_files appended. */
  function ClassifyListing(files: seq<string>): Listing
  {
    if files == [] then Listing(None, [])
    else
      var c := ClassifyListing(files[..|files| - 1]);
      var f := files[|files| - 1];
      if InvoiceEntry(f) then c.(invoice := Some(f))
      else if SheetEntry(f) then c.(sheets := c.sheets + [f])
      else c
  }

  method ClassifyFiles(files: seq<string>) returns (invoice: Option<string>, sheets: seq<string>)
    ensures Listing(invoice, sheets) == ClassifyListing(files)
  {
    invoice, sheets := None, [];
    var i := 0;
    while i < |files|
      invariant 0 <= i <= |files|
      invariant Listing(invoice, sheets) == ClassifyListing(files[..i])
    {
      assert files[..i + 1][..i] == files[..i];
      var f := files[i];
      if InvoiceEntry(f) {
        invoice := Some(f);
      } else if SheetEntry(f) {
        sheets := sheets + [f];
      }
      i := i + 1;
    }
    assert files[..i] == files;
  }

  /** The timesheet entries of a listing, in listing order. */
  function SheetsOf(files: seq<string>): seq<string>
  {
    if files == [] then [] else (if SheetEntry(files[0]) then [files[0]] else []) + SheetsOf(files[1..])
  }

  lemma {:induction false} SheetsOfAppend(files: seq<string>, f: string)
    ensures SheetsOf(files + [f]) == SheetsOf(files) + (if SheetEntry(f) then [f] else [])
  {
    var last := if SheetEntry(f) then [f] else [];
    if files == [] {
      assert [f][1..] == [];
      assert SheetsOf([f]) == last + SheetsOf([]);
    } else {
      var head := if SheetEntry(files[0]) then [files[0]] else [];
      var rest := files[1..];
      assert (files + [f])[0] == files[0];
      assert (files + [f])[1..] == rest + [f];
      SheetsOfAppend(rest, f);
      assert SheetsOf(files + [f]) == head + (SheetsOf(rest) + last);
      assert SheetsOf(files) == head + SheetsOf(rest);
    }
  }

  /** The invoice is the last invoice entry in listing order (none only when
      there is no invoice entry), and the timesheets are exactly the
      timesheet entries in listing order. */
  lemma {:induction false} ClassifyListingSpec(files: seq<string>)
    ensures ClassifyListing(files).sheets == SheetsOf(files)
    ensures ClassifyListing(files).invoice.None? <==> forall k :: 0 <= k < |files| ==> !InvoiceEntry(files[k])
    ensures ClassifyListing(files).invoice.Some? ==>
              exists k :: 0 <= k < |files| && files[k] == ClassifyListing(files).invoice.value && InvoiceEntry(files[k])
                && forall j :: k < j < |files| ==> !InvoiceEntry(files[j])
  {
    if files != [] {
      var front := files[..|files| - 1];
      var f := files[|files| - 1];
      assert files == front + [f];
      ClassifyListingSpec(front);
      SheetsOfAppend(front, f);
      var c := ClassifyListing(front);
      if !InvoiceEntry(f) {
        if c.invoice.Some? {
          var k :| 0 <= k < |front| && front[k] == c.invoice.value && InvoiceEntry(front[k])
                   && forall j :: k < j < |front| ==> !InvoiceEntry(front[j]);
          assert files[k] == front[k];
          forall j | k < j < |files| ensures !InvoiceEntry(files[j]) {
            if j < |front| { assert files[j] == front[j]; }
          }
        } else {
          forall k | 0 <= k < |files| ensures !InvoiceEntry(files[k]) {
            if k < |front| { assert files[k] == front[k]; }
          }
        }
      }
    }
  }

  // ---------------------------------------------------------------------
  // Converting one timesheet
  // ---------------------------------------------------------------------

  /** The disk after a timesheet was processed, and the path appended to
      pdf_files_to_merge. */
  datatype Produced = Produced(fs: FileSystem, path: string)

  /** The page of an image saved as a PDF: turned upright when it is wider
      than tall. */
  function ImagePage(width: int, height: int): Page
  {
    if width > height then Page(height, width, 0) else Page(width, height, 0)
  }

  /** The try block for one timesheet: None when it raises, and also when the
      lower-cased extension of os.path.splitext matches no branch (a name
      such as ".pdf", which endswith accepts but splitext gives no
      extension). A Word document is exported to {root}.pdf and that export
      written again, oriented, to {root}_rotated.pdf. */
  function ProcessSheet(fs: FileSystem, folder: string, ts: string): Option<Produced>
  {
    var src := Join(folder, ts);
    var ext := Ext(ts);
    var root := Root(ts);
    if ext == ".pdf" then
      match ReadPdf(fs, src)
      case None => None
      case Some(pages) =>
        Some(Produced(Write(fs, folder, root + "_rotated.pdf", Pdf(Normalized(Landscape, pages))),
                      Join(folder, root + "_rotated.pdf")))
    else if ext == ".jpg" || ext == ".jpeg" || ext == ".png" then
      if src in fs.files && fs.files[src].Image? then
        var img := fs.files[src];
        Some(Produced(Write(fs, folder, root + ".pdf", Pdf([ImagePage(img.width, img.height)])),
                      Join(folder, root + ".pdf")))
      else None
    else if ext == ".docx" || ext == ".doc" then
      if src in fs.files && fs.files[src].Word? then
        var pages := fs.files[src].rendered;
        var exported := Write(fs, folder, root + ".pdf", Pdf(pages));
        Some(Produced(Write(exported, folder, root + "_rotated.pdf", Pdf(Normalized(Landscape, pages))),
                      Join(folder, root + "_rotated.pdf")))
      else None
    else None
  }

  method ProcessOne(fs: FileSystem, folder: string, ts: string) returns (r: Option<Produced>)
    ensures r == ProcessSheet(fs, folder, ts)
  {
    var src := Join(folder, ts);
    var ext := Ext(ts);
    var root := Root(ts);
    r := None;
    if ext == ".pdf" {
      var reading := ReadPdf(fs, src);
      if reading.Some? {
        var written := OrientPages(Landscape, reading.value);
        r := Some(Produced(Write(fs, folder, root + "_rotated.pdf", Pdf(written)), Join(folder, root + "_rotated.pdf")));
      }
    } else if ext == ".jpg" || ext == ".jpeg" || ext == ".png" {
      if src in fs.files && fs.files[src].Image? {
        var img := fs.files[src];
        var page := Page(img.width, img.height, 0);
        if img.width > img.height {
          page := Page(img.height, img.width, 0);
        }
        r := Some(Produced(Write(fs, folder, root + ".pdf", Pdf([page])), Join(folder, root + ".pdf")));
      }
    } else if ext == ".docx" || ext == ".doc" {
      if src in fs.files && fs.files[src].Word? {
        var exported := Write(fs, folder, root + ".pdf", Pdf(fs.files[src].rendered));
        var reading := ReadPdf(exported, Join(folder, root + ".pdf"));
        var written := OrientPages(Landscape, reading.value);
        r := Some(Produced(Write(exported, folder, root + "_rotated.pdf", Pdf(written)), Join(folder, root + "_rotated.pdf")));
      }
    }
  }

  /** A processed image is never wider than tall, and keeps its two sides. */
  lemma ImageComesOutUpright(fs: FileSystem, folder: string, ts: string)
    requires var ext := Ext(ts); ext == ".jpg" || ext == ".jpeg" || ext == ".png"
    requires ProcessSheet(fs, folder, ts).Some?
    ensures var src := Join(folder, ts);
            var out := ProcessSheet(fs, folder, ts).value;
            src in fs.files && fs.files[src].Image?
            && out.path == Join(folder, Root(ts) + ".pdf")
            && ReadPdf(out.fs, out.path).Some? && |ReadPdf(out.fs, out.path).value| == 1
            && var p := ReadPdf(out.fs, out.path).value[0];
               p.width <= p.height && p.rotate == 0
               && {p.width, p.height} == {fs.files[src].width, fs.files[src].height}
  {
  }

  /** A processed PDF or Word timesheet keeps every page in order, each
      turned exactly when its MediaBox is wider than tall. */
  lemma PagesTurnedWhenWide(fs: FileSystem, folder: string, ts: string)
    requires var ext := Ext(ts); ext == ".pdf" || ext == ".docx" || ext == ".doc"
    requires ProcessSheet(fs, folder, ts).Some?
    ensures var src := Join(folder, ts);
            var source := if Ext(ts) == ".pdf" then ReadPdf(fs, src) else Some(fs.files[src].rendered);
            var out := ProcessSheet(fs, folder, ts).value;
            src in fs.files && source.Some?
            && out.path == Join(folder, Root(ts) + "_rotated.pdf")
            && ReadPdf(out.fs, out.path).Some?
            && var written := ReadPdf(out.fs, out.path).value;
               |written| == |source.value|
               && forall i :: 0 <= i < |written| ==>
                    written[i].width == source.value[i].width && written[i].height == source.value[i].height
                    && written[i].rotate == source.value[i].rotate + (if source.value[i].width > source.value[i].height then 90 else 0)
  {
    var src := Join(folder, ts);
    var source := if Ext(ts) == ".pdf" then ReadPdf(fs, src) else Some(fs.files[src].rendered);
    forall i | 0 <= i < |source.value| ensures Normalized(Landscape, source.value)[i].width == source.value[i].width {
      NormalizedAt(Landscape, source.value, i);
    }
    forall i | 0 <= i < |source.value|
      ensures Normalized(Landscape, source.value)[i].height == source.value[i].height
      ensures Normalized(Landscape, source.value)[i].rotate
              == source.value[i].rotate + (if source.value[i].width > source.value[i].height then 90 else 0)
    {
      NormalizedAt(Landscape, source.value, i);
    }
  }

  /** The disk after the timesheet loop, and pdf_files_to_merge without the
      invoice. */
  datatype Processed = Processed(fs: FileSystem, outputs: seq<string>)

  function ProcessSheets(fs: FileSystem, folder: string, sheets: seq<string>): Processed
  {
    if sheets == [] then Processed(fs, [])
    else
      var p := ProcessSheets(fs, folder, sheets[..|sheets| - 1]);
      match ProcessSheet(p.fs, folder, sheets[|sheets| - 1])
      case None => p
      case Some(out) => Processed(out.fs, p.outputs + [out.path])
  }

  method ProcessAll(fs: FileSystem, folder: string, sheets: seq<string>) returns (fs': FileSystem, outputs: seq<string>)
    ensures Processed(fs', outputs) == ProcessSheets(fs, folder, sheets)
  {
    fs', outputs := fs, [];
    var i := 0;
    while i < |sheets|
      invariant 0 <= i <= |sheets|
      invariant Processed(fs', outputs) == ProcessSheets(fs, folder, sheets[..i])
    {
      assert sheets[..i + 1][..i] == sheets[..i];
      var out := ProcessOne(fs', folder, sheets[i]);
      if out.Some? {
        fs', outputs := out.value.fs, outputs + [out.value.path];
      }
      i := i + 1;
    }
    assert sheets[..i] == sheets;
  }

  /** The two names a timesheet's output can carry. */
  predicate OutputOf(folder: string, ts: string, q: string)
  {
    q == Join(folder, Root(ts) + ".pdf") || q == Join(folder, Root(ts) + "_rotated.pdf")
  }

  lemma ProducedPath(fs: FileSystem, folder: string, ts: string)
    requires ProcessSheet(fs, folder, ts).Some?
    ensures OutputOf(folder, ts, ProcessSheet(fs, folder, ts).value.path)
  {
  }

  /** Each appended path is the output of a timesheet, and a timesheet whose
      processing raised leaves no entry. */
  lemma {:induction false} OutputsAtMostSheets(fs: FileSystem, folder: string, sheets: seq<string>)
    ensures |ProcessSheets(fs, folder, sheets).outputs| <= |sheets|
    ensures forall q :: q in ProcessSheets(fs, folder, sheets).outputs ==> exists ts :: ts in sheets && OutputOf(folder, ts, q)
  {
    if sheets != [] {
      var front := sheets[..|sheets| - 1];
      var ts := sheets[|sheets| - 1];
      OutputsAtMostSheets(fs, folder, front);
      var p := ProcessSheets(fs, folder, front);
      var out := ProcessSheet(p.fs, folder, ts);
      assert ProcessSheets(fs, folder, sheets) == if out.None? then p else Processed(out.value.fs, p.outputs + [out.value.path]);
      if out.Some? {
        ProducedPath(p.fs, folder, ts);
      }
      forall q | q in ProcessSheets(fs, folder, sheets).outputs
        ensures exists t :: t in sheets && OutputOf(folder, t, q)
      {
        if q in p.outputs {
          var t :| t in front && OutputOf(folder, t, q);
          assert t in sheets;
        } else {
          assert ts in sheets && OutputOf(folder, ts, q);
        }
      }
    }
  }

  // ---------------------------------------------------------------------
  // The month loop of one client
  // ---------------------------------------------------------------------

  /** The client's progress through its months: the disk and
      merged_invoice_path, or the disk left by a merge that raised. */
  datatype ClientRun = Running(fs: FileSystem, merged: Option<string>) | Crashed(fs: FileSystem)

  /** The merged file of a week folder: {invoice root}_.pdf. */
  function MergedName(invoice: string): string
  {
    Root(invoice) + "_.pdf"
  }

  /** One month folder. A month without the week folder, or a week folder
      without an invoice, changes nothing. */
  function MonthStep(r: ClientRun, clientPath: string, month: string, weekName: string): ClientRun
  {
    if r.Crashed? then r
    else
      var monthPath := Join(clientPath, month);
      var weekPath := Join(monthPath, weekName);
      if !IsDir(r.fs, monthPath) || !IsDir(r.fs, weekPath) then r
      else
        var listing := ClassifyListing(ListDir(r.fs, weekPath));
        if listing.invoice.None? then r
        else
          var p := ProcessSheets(r.fs, weekPath, listing.sheets);
          var name := MergedName(listing.invoice.value);
          match MergeInto(p.fs, [Join(weekPath, listing.invoice.value)] + p.outputs, weekPath, name)
          case None => Crashed(p.fs)
          case Some(fs') => Running(fs', Some(Join(weekPath, name)))
  }

  function Months(r: ClientRun, clientPath: string, months: seq<string>, weekName: string): ClientRun
  {
    if months == [] then r
    else MonthStep(Months(r, clientPath, months[..|months| - 1], weekName), clientPath, months[|months| - 1], weekName)
  }

  method MonthLoop(fs: FileSystem, clientPath: string, months: seq<string>, weekName: string) returns (r: ClientRun)
    ensures r == Months(Running(fs, None), clientPath, months, weekName)
  {
    r := Running(fs, None);
    var i := 0;
    while i < |months|
      invariant 0 <= i <= |months|
      invariant r == Months(Running(fs, None), clientPath, months[..i], weekName)
    {
      r := ProcessMonth(r, clientPath, months[i], weekName);
      assert r == Months(Running(fs, None), clientPath, months[..i + 1], weekName) by {
        assert months[..i + 1][..i] == months[..i];
      }
      if r.Crashed? {
        CrashEndsMonths(Running(fs, None), clientPath, months, i + 1, weekName);
        return;
      }
      i := i + 1;
    }
    assert months[..i] == months;
  }

  method ProcessMonth(r: ClientRun, clientPath: string, month: string, weekName: string) returns (r': ClientRun)
    ensures r' == MonthStep(r, clientPath, month, weekName)
  {
    r' := r;
    if r.Crashed? {
      return;
    }
    var monthPath := Join(clientPath, month);
    var weekPath := Join(monthPath, weekName);
    if !IsDir(r.fs, monthPath) || !IsDir(r.fs, weekPath) {
      return;
    }
    var invoice, sheets := ClassifyFiles(ListDir(r.fs, weekPath));
    if invoice.None? {
      return;
    }
    var fs', outputs := ProcessAll(r.fs, weekPath, sheets);
    var name := MergedName(invoice.value);
    var written := MergeAndWrite(fs', [Join(weekPath, invoice.value)] + outputs, weekPath, name);
    if written.None? {
      return Crashed(fs');
    }
    r' := Running(written.value, Some(Join(weekPath, name)));
  }

  /** Nothing happens after a merge raised. */
  lemma {:induction false} CrashedStays(r: ClientRun, clientPath: string, months: seq<string>, weekName: string)
    requires r.Crashed?
    ensures Months(r, clientPath, months, weekName) == r
  {
    if months != [] {
      CrashedStays(r, clientPath, months[..|months| - 1], weekName);
    }
  }

  /** A crash in month n leaves the later months unprocessed. */
  lemma CrashEndsMonths(r: ClientRun, clientPath: string, months: seq<string>, n: nat, weekName: string)
    requires n <= |months| && Months(r, clientPath, months[..n], weekName).Crashed?
    ensures Months(r, clientPath, months, weekName) == Months(r, clientPath, months[..n], weekName)
  {
    CrashedStays(Months(r, clientPath, months[..n], weekName), clientPath, months[n..], weekName);
    assert months[..n] + months[n..] == months;
    MonthsSplit(r, clientPath, months[..n], months[n..], weekName);
  }

  lemma {:induction false} MonthsSplit(r: ClientRun, clientPath: string, a: seq<string>, b: seq<string>, weekName: string)
    ensures Months(r, clientPath, a + b, weekName) == Months(Months(r, clientPath, a, weekName), clientPath, b, weekName)
  {
    if b == [] {
      assert a + b == a;
    } else {
      assert (a + b)[..|a + b| - 1] == a + b[..|b| - 1];
      MonthsSplit(r, clientPath, a, b[..|b| - 1], weekName);
    }
  }

  /** A week folder with no invoice entry is skipped: nothing is converted,
      merged or recorded for it. */
  lemma NoInvoiceNoMerge(r: ClientRun, clientPath: string, month: string, weekName: string)
    requires var weekPath := Join(Join(clientPath, month), weekName);
             IsDir(r.fs, weekPath) && forall f :: f in ListDir(r.fs, weekPath) ==> !InvoiceEntry(f)
    ensures MonthStep(r, clientPath, month, weekName) == r
  {
    var weekPath := Join(Join(clientPath, month), weekName);
    ClassifyListingSpec(ListDir(r.fs, weekPath));
  }

  /** A merged week folder: the file {invoice root}_.pdf in it holds the
      invoice's pages followed by those of the processed timesheets, and
      it becomes merged_invoice_path. */
  lemma MonthMergeShape(r: ClientRun, clientPath: string, month: string, weekName: string)
    requires r.Running?
    requires MonthStep(r, clientPath, month, weekName).Running?
    requires MonthStep(r, clientPath, month, weekName) != r
    ensures var weekPath := Join(Join(clientPath, month), weekName);
            var listing := ClassifyListing(ListDir(r.fs, weekPath));
            var p := ProcessSheets(r.fs, weekPath, listing.sheets);
            var r' := MonthStep(r, clientPath, month, weekName);
            listing.invoice.Some? && InvoiceEntry(listing.invoice.value)
            && r'.merged == Some(Join(weekPath, MergedName(listing.invoice.value)))
            && ReadPdf(p.fs, Join(weekPath, listing.invoice.value)).Some?
            && MergedPages(p.fs, p.outputs).Some?
            && ReadPdf(r'.fs, r'.merged.value)
               == Some(ReadPdf(p.fs, Join(weekPath, listing.invoice.value)).value + MergedPages(p.fs, p.outputs).value)
  {
    var weekPath := Join(Join(clientPath, month), weekName);
    var listing := ClassifyListing(ListDir(r.fs, weekPath));
    ClassifyListingSpec(ListDir(r.fs, weekPath));
    var p := ProcessSheets(r.fs, weekPath, listing.sheets);
    InvoicePagesFirst(p.fs, Join(weekPath, listing.invoice.value), p.outputs);
  }

  /** merged_invoice_path is either unset or the {invoice root}_.pdf of the
      week folder under one of the listed months; a later merging month
      replaces an earlier one. */
  lemma {:induction false} MergedPathInWeekFolder(fs: FileSystem, clientPath: string, months: seq<string>, weekName: string)
    ensures var r := Months(Running(fs, None), clientPath, months, weekName);
            r.Running? && r.merged.Some? ==>
              exists k, inv :: 0 <= k < |months| && InvoiceEntry(inv)
                && r.merged.value == Join(Join(Join(clientPath, months[k]), weekName), MergedName(inv))
  {
    if months != [] {
      var front := months[..|months| - 1];
      MergedPathInWeekFolder(fs, clientPath, front, weekName);
      var mid := Months(Running(fs, None), clientPath, front, weekName);
      var r := MonthStep(mid, clientPath, months[|months| - 1], weekName);
      if r.Running? && r.merged.Some? {
        if r == mid {
          var k, inv :| 0 <= k < |front| && InvoiceEntry(inv)
                        && mid.merged.value == Join(Join(Join(clientPath, front[k]), weekName), MergedName(inv));
          assert months[k] == front[k];
        } else {
          var weekPath := Join(Join(clientPath, months[|months| - 1]), weekName);
          ClassifyListingSpec(ListDir(mid.fs, weekPath));
          var inv := ClassifyListing(ListDir(mid.fs, weekPath)).invoice.value;
          assert r.merged.value == Join(weekPath, MergedName(inv));
        }
      }
    }
  }

  // ---------------------------------------------------------------------
  // The row loop
  // ---------------------------------------------------------------------

  /** One ledger row: Next with the disk and the row as it now is, or Stop
      with the disk left by a merge that raised. */
  datatype RowOutcome = Next(fs: FileSystem, row: Row) | Stop(fs: FileSystem)

  function HandleRow(fs: FileSystem, row: Row, mainFolder: string, clients: seq<string>, weekName: string): RowOutcome
  {
    if !Selected(row.name, clients) then Next(fs, row)
    else
      var clientPath := Join(mainFolder, row.name.s);
      if !IsDir(fs, clientPath) then Next(fs, row)
      else match Months(Running(fs, None), clientPath, ListDir(fs, clientPath), weekName)
        case Crashed(fs') => Stop(fs')
        case Running(fs', merged) => Next(fs', if merged.Some? then row.(path := Text(merged.value)) else row)
  }

  /** The end of the script: the disk and the saved sheet, or the disk alone
      when a merge raised (the workbook is then never saved). */
  datatype Ending = Saved(fs: FileSystem, rows: seq<Row>) | Aborted(fs: FileSystem)

  /** The rows from row 4 on, processed in order. */
  function ClientRows(fs: FileSystem, rows: seq<Row>, mainFolder: string, clients: seq<string>, weekName: string): (e: Ending)
    ensures e.Saved? ==> |e.rows| == |rows|
  {
    if rows == [] then Saved(fs, [])
    else
      match ClientRows(fs, rows[..|rows| - 1], mainFolder, clients, weekName)
      case Aborted(fs1) => Aborted(fs1)
      case Saved(fs1, done) =>
        match HandleRow(fs1, rows[|rows| - 1], mainFolder, clients, weekName)
        case Stop(fs2) => Aborted(fs2)
        case Next(fs2, row) => Saved(fs2, done + [row])
  }

  function RunScript(fs: FileSystem, rows: seq<Row>, mainFolder: string, clients: seq<string>, weekName: string): Ending
  {
    if |rows| <= FirstClientRow then Saved(fs, rows)
    else
      match ClientRows(fs, rows[FirstClientRow..], mainFolder, clients, weekName)
      case Aborted(fs') => Aborted(fs')
      case Saved(fs', done) => Saved(fs', rows[..FirstClientRow] + done)
  }

  method ProcessRow(fs: FileSystem, row: Row, mainFolder: string, clients: seq<string>, weekName: string)
    returns (r: RowOutcome)
    ensures r == HandleRow(fs, row, mainFolder, clients, weekName)
  {
    if !Selected(row.name, clients) {
      return Next(fs, row);
    }
    var clientPath := Join(mainFolder, row.name.s);
    if !IsDir(fs, clientPath) {
      return Next(fs, row);
    }
    var run := MonthLoop(fs, clientPath, ListDir(fs, clientPath), weekName);
    if run.Crashed? {
      return Stop(run.fs);
    }
    if run.merged.Some? {
      r := Next(run.fs, row.(path := Text(run.merged.value)));
    } else {
      r := Next(run.fs, row);
    }
  }

  /** The script from the two console answers to wb.save: the clients are
      parsed from the first answer, the week folder name is the second one
      stripped, and `aborted` says that a merge raised. */
  method MergeTimesheets(fs: FileSystem, sheet: array<Row>, mainFolder: string, clientsInput: string, weekInput: string)
    returns (fs': FileSystem, aborted: bool)
    modifies sheet
    ensures aborted ==> RunScript(fs, old(sheet[..]), mainFolder, ParseClients(clientsInput), Strip(weekInput)) == Aborted(fs')
    ensures !aborted ==> RunScript(fs, old(sheet[..]), mainFolder, ParseClients(clientsInput), Strip(weekInput)) == Saved(fs', sheet[..])
  {
    var clients := ParseClients(clientsInput);
    var weekName := Strip(weekInput);
    if sheet.Length <= FirstClientRow {
      return fs, false;
    }
    ghost var rows := sheet[..];
    fs', aborted := ProcessRows(fs, sheet, mainFolder, clients, weekName);
    if !aborted {
      assert sheet[..] == sheet[..FirstClientRow] + sheet[FirstClientRow..];
    }
  }

  /** The loop over rows 4..max_row. */
  method ProcessRows(fs: FileSystem, sheet: array<Row>, mainFolder: string, clients: seq<string>, weekName: string)
    returns (fs': FileSystem, aborted: bool)
    requires sheet.Length > FirstClientRow
    modifies sheet
    ensures sheet[..FirstClientRow] == old(sheet[..FirstClientRow])
    ensures aborted ==> ClientRows(fs, old(sheet[FirstClientRow..]), mainFolder, clients, weekName) == Aborted(fs')
    ensures !aborted ==> ClientRows(fs, old(sheet[FirstClientRow..]), mainFolder, clients, weekName) == Saved(fs', sheet[FirstClientRow..])
  {
    ghost var tail := sheet[FirstClientRow..];
    fs', aborted := fs, false;
    var r := FirstClientRow;
    while r < sheet.Length
      invariant FirstClientRow <= r <= sheet.Length
      invariant sheet[..FirstClientRow] == old(sheet[..FirstClientRow])
      invariant sheet[r..] == tail[r - FirstClientRow..]
      invariant ClientRows(fs, tail[..r - FirstClientRow], mainFolder, clients, weekName) == Saved(fs', sheet[FirstClientRow..r])
    {
      ghost var n := r - FirstClientRow;
      assert sheet[r] == tail[n];
      ClientRowsNext(fs, tail, n, mainFolder, clients, weekName);
      var outcome := ProcessRow(fs', sheet[r], mainFolder, clients, weekName);
      if outcome.Stop? {
        ClientRowsAbortStays(fs, tail, n + 1, mainFolder, clients, weekName);
        return outcome.fs, true;
      }
      sheet[r] := outcome.row;
      fs' := outcome.fs;
      assert sheet[FirstClientRow..r + 1] == sheet[FirstClientRow..r] + [outcome.row];
      r := r + 1;
    }
    assert tail[..r - FirstClientRow] == tail;
  }

  lemma ClientRowsNext(fs: FileSystem, rows: seq<Row>, n: nat, mainFolder: string, clients: seq<string>, weekName: string)
    requires n < |rows| && ClientRows(fs, rows[..n], mainFolder, clients, weekName).Saved?
    ensures var e := ClientRows(fs, rows[..n], mainFolder, clients, weekName);
            ClientRows(fs, rows[..n + 1], mainFolder, clients, weekName)
            == match HandleRow(e.fs, rows[n], mainFolder, clients, weekName)
               case Stop(f) => Aborted(f)
               case Next(f, row) => Saved(f, e.rows + [row])
  {
    assert rows[..n + 1][..n] == rows[..n];
  }

  /** Once a merge raised, the later rows are not processed. */
  lemma {:induction false} ClientRowsAbortStays(fs: FileSystem, rows: seq<Row>, n: nat, mainFolder: string,
                                                 clients: seq<string>, weekName: string)
    requires n <= |rows| && ClientRows(fs, rows[..n], mainFolder, clients, weekName).Aborted?
    ensures ClientRows(fs, rows, mainFolder, clients, weekName) == ClientRows(fs, rows[..n], mainFolder, clients, weekName)
  {
    if n < |rows| {
      assert rows[..|rows| - 1][..n] == rows[..n];
      ClientRowsAbortStays(fs, rows[..|rows| - 1], n, mainFolder, clients, weekName);
    } else {
      assert rows[..n] == rows;
    }
  }

  // ---------------------------------------------------------------------
  // What the script does to the sheet
  // ---------------------------------------------------------------------

  /** The rows handled one by one keep their number; only column G of a
      selected row can change, and only to a merged path. */
  lemma {:induction false} ClientRowsTouchOnlySelected(fs: FileSystem, rows: seq<Row>, mainFolder: string,
                                                       clients: seq<string>, weekName: string)
    ensures var e := ClientRows(fs, rows, mainFolder, clients, weekName);
            e.Saved? ==>
              forall j :: 0 <= j < |rows| ==>
                e.rows[j].name == rows[j].name
                && (e.rows[j] != rows[j] ==> Selected(rows[j].name, clients) && e.rows[j].path.Text?
                                             && EndsWith(e.rows[j].path.s, "_.pdf"))
  {
    if rows != [] {
      var front := rows[..|rows| - 1];
      ClientRowsTouchOnlySelected(fs, front, mainFolder, clients, weekName);
      var e := ClientRows(fs, rows, mainFolder, clients, weekName);
      if e.Saved? {
        var e1 := ClientRows(fs, front, mainFolder, clients, weekName);
        var row := rows[|rows| - 1];
        var h := HandleRow(e1.fs, row, mainFolder, clients, weekName);
        assert e == Saved(h.fs, e1.rows + [h.row]);
        HandleRowTouchesOnlySelected(e1.fs, row, mainFolder, clients, weekName);
        forall j | 0 <= j < |rows|
          ensures e.rows[j].name == rows[j].name
          ensures e.rows[j] != rows[j] ==> Selected(rows[j].name, clients) && e.rows[j].path.Text?
                                           && EndsWith(e.rows[j].path.s, "_.pdf")
        {
          if j < |front| {
            assert e.rows[j] == e1.rows[j] && rows[j] == front[j];
          }
        }
      }
    }
  }

  /** One row: column B stays, and column G changes only for a selected
      client, to the path of a merged file. */
  lemma HandleRowTouchesOnlySelected(fs: FileSystem, row: Row, mainFolder: string, clients: seq<string>,
                                     weekName: string)
    ensures var h := HandleRow(fs, row, mainFolder, clients, weekName);
            h.Next? ==>
              h.row.name == row.name
              && (h.row != row ==> Selected(row.name, clients) && h.row.path.Text? && EndsWith(h.row.path.s, "_.pdf"))
  {
    if Selected(row.name, clients) && IsDir(fs, Join(mainFolder, row.name.s)) {
      var clientPath := Join(mainFolder, row.name.s);
      var months := ListDir(fs, clientPath);
      MergedPathInWeekFolder(fs, clientPath, months, weekName);
      var run := Months(Running(fs, None), clientPath, months, weekName);
      if run.Running? && run.merged.Some? {
        var k, inv :| 0 <= k < |months| && InvoiceEntry(inv)
                      && run.merged.value == Join(Join(Join(clientPath, months[k]), weekName), MergedName(inv));
        assert EndsWith(run.merged.value, "_.pdf");
      }
    }
  }

  /** The script leaves rows 1 to 3, column B of every row, and every row not
      selected as they were; a selected row's column G is replaced only by a
      merged file's path. */
  lemma ScriptTouchesOnlySelectedRows(fs: FileSystem, rows: seq<Row>, mainFolder: string, clients: seq<string>,
                                      weekName: string)
    ensures var e := RunScript(fs, rows, mainFolder, clients, weekName);
            e.Saved? ==>
              |e.rows| == |rows|
              && (forall j :: 0 <= j < |rows| ==> e.rows[j].name == rows[j].name)
              && (forall j :: 0 <= j < |rows| && (j < FirstClientRow || !Selected(rows[j].name, clients)) ==>
                    e.rows[j] == rows[j])
              && (forall j :: 0 <= j < |rows| && e.rows[j] != rows[j] ==>
                    e.rows[j].path.Text? && EndsWith(e.rows[j].path.s, "_.pdf"))
  {
    if |rows| > FirstClientRow {
      var tail := rows[FirstClientRow..];
      ClientRowsTouchOnlySelected(fs, tail, mainFolder, clients, weekName);
      var e := RunScript(fs, rows, mainFolder, clients, weekName);
      if e.Saved? {
        var done := ClientRows(fs, tail, mainFolder, clients, weekName).rows;
        forall j | FirstClientRow <= j < |rows|
          ensures e.rows[j] == done[j - FirstClientRow] && rows[j] == tail[j - FirstClientRow]
        {
        }
      }
    }
  }

  /** A ledger row whose client folder has no month holding the week folder
      keeps its column G. */
  lemma NoWeekFolderKeepsRow(fs: FileSystem, row: Row, mainFolder: string, clients: seq<string>, weekName: string)
    requires Selected(row.name, clients)
    requires var clientPath := Join(mainFolder, row.name.s);
             IsDir(fs, clientPath)
             && forall m :: m in ListDir(fs, clientPath) ==> !IsDir(fs, Join(Join(clientPath, m), weekName))
    ensures HandleRow(fs, row, mainFolder, clients, weekName) == Next(fs, row)
  {
    var clientPath := Join(mainFolder, row.name.s);
    NoWeekFolderNoChange(fs, clientPath, ListDir(fs, clientPath), weekName);
  }

  lemma {:induction false} NoWeekFolderNoChange(fs: FileSystem, clientPath: string, months: seq<string>, weekName: string)
    requires forall m :: m in months ==> !IsDir(fs, Join(Join(clientPath, m), weekName))
    ensures Months(Running(fs, None), clientPath, months, weekName) == Running(fs, None)
  {
    if months != [] {
      NoWeekFolderNoChange(fs, clientPath, months[..|months| - 1], weekName);
    }
  }
}
