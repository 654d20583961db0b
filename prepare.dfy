/** prepare_files_for_merge (114, 111, 106, 108) and collect_files_for_merge
    (101, 102, 103, 110): pick the invoice and the timesheets out of a week
    folder, convert every timesheet to a PDF next to its source, and return
    the list of PDFs to merge. The revisions differ only in the choices a
    Policy records. */
module Prepare {
  import opened Text
  import opened Pages
  import opened Disk
  import opened Folders

  /** Which names count as the invoice. */
  datatype InvoiceRule =
    | AnyInvoice   // the lower-cased name contains "invoice"
    | PdfInvoice   // ... and the lower-cased extension is ".pdf"

  /** What happens to the invoice before the merge. */
  datatype InvoiceStep =
    | UseAsIs
      /** converted into {root}_invoice_ready.pdf; `keepUnsupported`: an
          extension no converter handles still yields that path (nothing is
          written); `bySuffix`: the converter is chosen by the suffix of the
          lower-cased path rather than by the extension. */
    | ConvertToReady(keepUnsupported: bool, bySuffix: bool)

  datatype Policy = Policy(
    invoiceRule: InvoiceRule,
    invoiceStep: InvoiceStep,
    invoiceListed: bool,   // the invoice heads the returned list
    rotateRule: Rule,      // rule of rotate_pdf_if_needed (Word output, converted invoice)
    timesheetRule: Rule,   // rule applied to PDF timesheets
    fallback: bool,        // rotate_pdf_if_needed copies the source when PdfReader raises
    pdfSuffix: string)     // a PDF timesheet becomes {root}{pdfSuffix}.pdf

  /** 114.py:190-245: any invoice, used as it is and kept out of the list; PDF
      timesheets through optimize_timesheet_orientation. */
  const P114: Policy := Policy(AnyInvoice, UseAsIs, false, Wide15, Optimize12, true, "_rotated")
  /** 111.py:148-220 */
  const P111: Policy := Policy(AnyInvoice, ConvertToReady(true, true), true, Landscape, Landscape, true, "_rotated")
  /** 106.py:135-208 and 108.py:142-211 */
  const P106: Policy := Policy(AnyInvoice, ConvertToReady(false, false), true, Landscape, Landscape, false, "_ready")
  /** collect_files_for_merge: 101.py:125-177, 102.py:129-181, 103.py:133-178, 110.py:100-140 */
  const PCollect: Policy := Policy(PdfInvoice, UseAsIs, true, Landscape, Landscape, false, "_rotated")

  predicate IsInvoiceName(p: Policy, name: string)
  {
    Contains(Lower(name), "invoice") && (p.invoiceRule == PdfInvoice ==> Ext(name) == ".pdf")
  }

  /** A listed name that is a regular file and names the invoice. */
  predicate InvoiceAt(p: Policy, fs: FileSystem, folder: string, name: string)
  {
    IsFile(fs, Join(folder, name)) && IsInvoiceName(p, name)
  }

  /** A listed name that is a regular file, not the invoice, and recognised. */
  predicate TimesheetAt(p: Policy, fs: FileSystem, folder: string, name: string)
  {
    IsFile(fs, Join(folder, name)) && !IsInvoiceName(p, name) && IsRecognised(name)
  }

  // ---------------------------------------------------------------------
  // The classification loop
  // ---------------------------------------------------------------------

  /** The invoice candidate and the timesheet paths, as paths under `folder`. */
  datatype Classified = Classified(invoice: Option<string>, others: seq<string>)

  /** The first loop over the listed names: the invoice candidate is
      reassigned at every match, timesheets are appended. */
  function Classify(p: Policy, fs: FileSystem, folder: string, names: seq<string>): Classified
  {
    if names == [] then Classified(None, [])
    else
      var c := Classify(p, fs, folder, names[..|names| - 1]);
      var n := names[|names| - 1];
      if !IsFile(fs, Join(folder, n)) then c
      else if IsInvoiceName(p, n) then c.(invoice := Some(Join(folder, n)))
      else if IsRecognised(n) then c.(others := c.others + [Join(folder, n)])
      else c
  }

  /** The candidate is the last name that is an invoice file. */
  lemma {:induction false} ClassifyInvoiceIsLast(p: Policy, fs: FileSystem, folder: string, names: seq<string>)
    ensures Classify(p, fs, folder, names).invoice.None? <==>
              forall k :: 0 <= k < |names| ==> !InvoiceAt(p, fs, folder, names[k])
    ensures Classify(p, fs, folder, names).invoice.Some? ==>
              exists k :: 0 <= k < |names| && InvoiceAt(p, fs, folder, names[k])
                && Classify(p, fs, folder, names).invoice.value == Join(folder, names[k])
                && forall j :: k < j < |names| ==> !InvoiceAt(p, fs, folder, names[j])
  {
    if names != [] {
      var front := names[..|names| - 1];
      var n := names[|names| - 1];
      ClassifyInvoiceIsLast(p, fs, folder, front);
      if InvoiceAt(p, fs, folder, n) {
        assert names[|names| - 1] == n;
      } else {
        var c := Classify(p, fs, folder, front);
        assert Classify(p, fs, folder, names).invoice == c.invoice;
        if c.invoice.Some? {
          var k :| 0 <= k < |front| && InvoiceAt(p, fs, folder, front[k])
                   && c.invoice.value == Join(folder, front[k])
                   && forall j :: k < j < |front| ==> !InvoiceAt(p, fs, folder, front[j]);
          assert names[k] == front[k];
          forall j | k < j < |names| ensures !InvoiceAt(p, fs, folder, names[j]) {
            if j < |front| { assert names[j] == front[j]; }
          }
        } else {
          forall k | 0 <= k < |names| ensures !InvoiceAt(p, fs, folder, names[k]) {
            if k < |front| { assert names[k] == front[k]; }
          }
        }
      }
    }
  }

  /** Every timesheet path comes from a listed timesheet name. */
  lemma {:induction false} ClassifyOthersSound(p: Policy, fs: FileSystem, folder: string, names: seq<string>)
    ensures forall q :: q in Classify(p, fs, folder, names).others ==>
              exists n :: n in names && q == Join(folder, n) && TimesheetAt(p, fs, folder, n)
  {
    if names != [] {
      var front := names[..|names| - 1];
      ClassifyOthersSound(p, fs, folder, front);
      forall q | q in Classify(p, fs, folder, names).others
        ensures exists n :: n in names && q == Join(folder, n) && TimesheetAt(p, fs, folder, n)
      {
        if q in Classify(p, fs, folder, front).others {
          var n :| n in front && q == Join(folder, n) && TimesheetAt(p, fs, folder, n);
          assert n in names;
        } else {
          assert q == Join(folder, names[|names| - 1]);
        }
      }
    }
  }

  /** Every listed timesheet name has its path among the timesheets. */
  lemma {:induction false} ClassifyOthersComplete(p: Policy, fs: FileSystem, folder: string, names: seq<string>)
    ensures forall k :: 0 <= k < |names| && TimesheetAt(p, fs, folder, names[k]) ==>
              Join(folder, names[k]) in Classify(p, fs, folder, names).others
  {
    if names != [] {
      var front := names[..|names| - 1];
      ClassifyOthersComplete(p, fs, folder, front);
      ClassifyOthersStep(p, fs, folder, names);
      forall k | 0 <= k < |front| ensures names[k] == front[k] {
      }
    }
  }

  /** One more listed name adds its path to the timesheets exactly when it is
      a timesheet. */
  lemma ClassifyOthersStep(p: Policy, fs: FileSystem, folder: string, names: seq<string>)
    requires names != []
    ensures var n := names[|names| - 1];
            var before := Classify(p, fs, folder, names[..|names| - 1]).others;
            Classify(p, fs, folder, names).others
            == if TimesheetAt(p, fs, folder, n) then before + [Join(folder, n)] else before
  {
  }

  /** Sorted names give the timesheets in sorted order. */
  lemma {:induction false} ClassifyOthersSorted(p: Policy, fs: FileSystem, folder: string, names: seq<string>)
    requires SortedNames(names)
    ensures SortedNames(Classify(p, fs, folder, names).others)
  {
    if names != [] {
      var front := names[..|names| - 1];
      var n := names[|names| - 1];
      ClassifyOthersSorted(p, fs, folder, front);
      ClassifyOthersSound(p, fs, folder, front);
      var rest := Classify(p, fs, folder, front).others;
      ClassifyOthersStep(p, fs, folder, names);
      if TimesheetAt(p, fs, folder, n) {
        var r := rest + [Join(folder, n)];
        forall i, j | 0 <= i < j < |r| ensures Below(r[i], r[j]) {
          if j == |r| - 1 {
            assert r[i] in rest;
            var m :| m in front && r[i] == Join(folder, m) && TimesheetAt(p, fs, folder, m);
            var k :| 0 <= k < |front| && front[k] == m;
            assert Below(names[k], names[|names| - 1]);
            BelowPrefix(folder + [Sep], m, n);
          } else {
            assert r[i] == rest[i] && r[j] == rest[j];
          }
        }
      }
    }
  }

  // ---------------------------------------------------------------------
  // Converting one timesheet
  // ---------------------------------------------------------------------

  /** The name of the PDF a timesheet becomes. */
  function OutName(p: Policy, name: string): string
  {
    if KindOf(Ext(name)) == PdfKind then Root(name) + p.pdfSuffix + ".pdf" else Root(name) + ".pdf"
  }

  function OutPath(p: Policy, folder: string, src: string): string
  {
    Join(folder, OutName(p, Basename(src)))
  }

  /** The converter a kind of file goes through: rotate_pdf_if_needed (or the
      optimising variant) for a PDF, image_to_pdf, word_to_rotated_pdf; None
      when it raises or no converter handles the kind. */
  function Dispatch(kind: Kind, pdfRule: Rule, wordRule: Rule, fallback: bool,
                    fs: FileSystem, src: string, folder: string, out: string): (r: Option<FileSystem>)
    ensures r.Some? ==> WritesOnly(fs, r.value, Join(folder, out))
    ensures kind == OtherKind ==> r.None?
    ensures kind == ImageKind ==> (r.Some? <==> src in fs.files && fs.files[src].Image?)
    ensures kind == WordKind ==> (r.Some? <==> src in fs.files && fs.files[src].Word?)
  {
    match kind
    case PdfKind => Rotated(fs, pdfRule, fallback, src, folder, out)
    case ImageKind => ImageToPdf(fs, src, folder, out)
    case WordKind => WordToRotated(fs, wordRule, src, folder, out)
    case OtherKind => None
  }

  method DispatchStep(kind: Kind, pdfRule: Rule, wordRule: Rule, fallback: bool,
                      fs: FileSystem, src: string, folder: string, out: string) returns (r: Option<FileSystem>)
    ensures r == Dispatch(kind, pdfRule, wordRule, fallback, fs, src, folder, out)
  {
    match kind
    case PdfKind =>
      r := RotatePdfIfNeeded(fs, pdfRule, fallback, src, folder, out);
    case ImageKind =>
      r := ImageToPdf(fs, src, folder, out);
    case WordKind =>
      r := WordToRotated(fs, wordRule, src, folder, out);
    case OtherKind =>
      r := None;
  }

  /** The try block of the conversion loop for one source path; None when it
      raises (the source is then dropped). An extension no converter handles
      is skipped in the same way. Only the output path changes. */
  function Convert(p: Policy, fs: FileSystem, folder: string, src: string): (r: Option<FileSystem>)
    ensures r.Some? ==> WritesOnly(fs, r.value, OutPath(p, folder, src))
  {
    var name := Basename(src);
    Dispatch(KindOf(Ext(name)), p.timesheetRule, p.rotateRule, p.fallback, fs, src, folder, OutName(p, name))
  }

  /** The try block of one file. */
  method ConvertStep(p: Policy, fs: FileSystem, folder: string, src: string) returns (r: Option<FileSystem>)
    ensures r == Convert(p, fs, folder, src)
  {
    var name := Basename(src);
    r := DispatchStep(KindOf(Ext(name)), p.timesheetRule, p.rotateRule, p.fallback, fs, src, folder, OutName(p, name));
  }

  /** Whether a conversion succeeds depends only on the source file. */
  lemma ConvertDependsOnSource(p: Policy, fs1: FileSystem, fs2: FileSystem, folder: string, src: string)
    requires src in fs1.files <==> src in fs2.files
    requires src in fs1.files ==> fs1.files[src] == fs2.files[src]
    ensures Convert(p, fs1, folder, src).Some? == Convert(p, fs2, folder, src).Some?
  {
  }

  // ---------------------------------------------------------------------
  // The conversion loop
  // ---------------------------------------------------------------------

  datatype Converted = Converted(outputs: seq<string>, fs: FileSystem)

  /** The second loop: each source is converted in turn against the disk the
      earlier conversions left; a source whose conversion raises is dropped. */
  function ConvertAll(p: Policy, fs: FileSystem, folder: string, srcs: seq<string>): Converted
  {
    if srcs == [] then Converted([], fs)
    else
      var c := ConvertAll(p, fs, folder, srcs[..|srcs| - 1]);
      var src := srcs[|srcs| - 1];
      match Convert(p, c.fs, folder, src)
      case None => c
      case Some(fs') => Converted(c.outputs + [OutPath(p, folder, src)], fs')
  }

  /** The sources whose conversion succeeds on the disk as it was before the
      loop. */
  function Survivors(p: Policy, fs: FileSystem, folder: string, srcs: seq<string>): seq<string>
  {
    if srcs == [] then []
    else
      var rest := Survivors(p, fs, folder, srcs[..|srcs| - 1]);
      if Convert(p, fs, folder, srcs[|srcs| - 1]).Some? then rest + [srcs[|srcs| - 1]] else rest
  }

  function OutPaths(p: Policy, folder: string, srcs: seq<string>): seq<string>
  {
    if srcs == [] then [] else OutPaths(p, folder, srcs[..|srcs| - 1]) + [OutPath(p, folder, srcs[|srcs| - 1])]
  }

  /** No output of the loop lands on one of its sources. */
  predicate NoCollision(p: Policy, folder: string, srcs: seq<string>)
  {
    forall i, j :: 0 <= i < |srcs| && 0 <= j < |srcs| ==> OutPath(p, folder, srcs[i]) != srcs[j]
  }

  /** The loop changes the disk only at the outputs of its sources. */
  lemma {:induction false} ConvertAllFrame(p: Policy, fs: FileSystem, folder: string, srcs: seq<string>, q: string)
    requires forall i :: 0 <= i < |srcs| ==> OutPath(p, folder, srcs[i]) != q
    ensures var fs' := ConvertAll(p, fs, folder, srcs).fs;
            (q in fs'.files <==> q in fs.files) && (q in fs.files ==> fs'.files[q] == fs.files[q])
  {
    if srcs != [] {
      var front := srcs[..|srcs| - 1];
      ConvertAllFrame(p, fs, folder, front, q);
    }
  }

  lemma NoCollisionFront(p: Policy, folder: string, srcs: seq<string>)
    requires srcs != [] && NoCollision(p, folder, srcs)
    ensures NoCollision(p, folder, srcs[..|srcs| - 1])
    ensures forall i :: 0 <= i < |srcs| - 1 ==> OutPath(p, folder, srcs[i]) != srcs[|srcs| - 1]
  {
    var front := srcs[..|srcs| - 1];
    forall i, j | 0 <= i < |front| && 0 <= j < |front| ensures OutPath(p, folder, front[i]) != front[j] {
      assert front[i] == srcs[i] && front[j] == srcs[j];
    }
  }

  /** Fail-open conversion: when no output overwrites a source, the loop
      returns one output per source whose conversion succeeds, in source
      order; a failing source is dropped and every other one is kept. */
  lemma {:induction false} ConvertAllKeepsSurvivors(p: Policy, fs: FileSystem, folder: string, srcs: seq<string>)
    requires NoCollision(p, folder, srcs)
    ensures ConvertAll(p, fs, folder, srcs).outputs == OutPaths(p, folder, Survivors(p, fs, folder, srcs))
  {
    if srcs != [] {
      var front := srcs[..|srcs| - 1];
      var src := srcs[|srcs| - 1];
      NoCollisionFront(p, folder, srcs);
      ConvertAllKeepsSurvivors(p, fs, folder, front);
      ConvertAllFrame(p, fs, folder, front, src);
      var c := ConvertAll(p, fs, folder, front);
      ConvertDependsOnSource(p, c.fs, fs, folder, src);
      var rest := Survivors(p, fs, folder, front);
      if Convert(p, fs, folder, src).Some? {
        assert Survivors(p, fs, folder, srcs) == rest + [src];
        assert OutPaths(p, folder, rest + [src]) == OutPaths(p, folder, rest) + [OutPath(p, folder, src)] by {
          assert (rest + [src])[..|rest|] == rest;
        }
      }
    }
  }

  /** A conversion only writes a file: the set of folders stays the same. */
  lemma ConvertKeepsDirs(p: Policy, fs: FileSystem, folder: string, src: string)
    ensures Convert(p, fs, folder, src).Some? ==> Convert(p, fs, folder, src).value.dirs.Keys == fs.dirs.Keys
  {
  }

  lemma {:induction false} ConvertAllKeepsDirs(p: Policy, fs: FileSystem, folder: string, srcs: seq<string>)
    ensures ConvertAll(p, fs, folder, srcs).fs.dirs.Keys == fs.dirs.Keys
  {
    if srcs != [] {
      var front := srcs[..|srcs| - 1];
      ConvertAllKeepsDirs(p, fs, folder, front);
      ConvertKeepsDirs(p, ConvertAll(p, fs, folder, front).fs, folder, srcs[|srcs| - 1]);
    }
  }

  // ---------------------------------------------------------------------
  // The invoice
  // ---------------------------------------------------------------------

  /** The name the converted invoice gets. */
  function ReadyName(name: string): string
  {
    Root(name) + "_invoice_ready.pdf"
  }

  /** The converter chosen by `.endswith` on the lower-cased path. */
  function SuffixKind(lowered: string): Kind
  {
    if EndsWith(lowered, ".pdf") then PdfKind
    else if EndsWith(lowered, ".jpg") || EndsWith(lowered, ".jpeg") || EndsWith(lowered, ".png") then ImageKind
    else if EndsWith(lowered, ".docx") || EndsWith(lowered, ".doc") then WordKind
    else OtherKind
  }

  datatype InvoiceResult = InvoiceResult(final: Option<string>, fs: FileSystem)

  /** The invoice block: the final invoice path (None when there is no
      candidate or its conversion raised) and the disk after it. */
  function PrepareInvoice(p: Policy, fs: FileSystem, folder: string, candidate: Option<string>): InvoiceResult
  {
    match candidate
    case None => InvoiceResult(None, fs)
    case Some(src) =>
      match p.invoiceStep
      case UseAsIs => InvoiceResult(Some(src), fs)
      case ConvertToReady(keepUnsupported, bySuffix) =>
        var ready := ReadyName(Basename(src));
        var kind := if bySuffix then SuffixKind(Lower(src)) else KindOf(Ext(Basename(src)));
        var attempt :=
          if kind == OtherKind && keepUnsupported then Some(fs)
          else Dispatch(kind, p.rotateRule, p.rotateRule, p.fallback, fs, src, folder, ready);
        match attempt
        case None => InvoiceResult(None, fs)
        case Some(fs') => InvoiceResult(Some(Join(folder, ready)), fs')
  }

  method PrepareInvoiceStep(p: Policy, fs: FileSystem, folder: string, candidate: Option<string>)
    returns (r: InvoiceResult)
    ensures r == PrepareInvoice(p, fs, folder, candidate)
  {
    if candidate.None? {
      return InvoiceResult(None, fs);
    }
    var src := candidate.value;
    if p.invoiceStep.UseAsIs? {
      return InvoiceResult(Some(src), fs);
    }
    var ready := ReadyName(Basename(src));
    var kind := if p.invoiceStep.bySuffix then SuffixKind(Lower(src)) else KindOf(Ext(Basename(src)));
    var attempt: Option<FileSystem>;
    if kind == OtherKind && p.invoiceStep.keepUnsupported {
      attempt := Some(fs);
    } else {
      attempt := DispatchStep(kind, p.rotateRule, p.rotateRule, p.fallback, fs, src, folder, ready);
    }
    if attempt.None? {
      r := InvoiceResult(None, fs);
    } else {
      r := InvoiceResult(Some(Join(folder, ready)), attempt.value);
    }
  }

  /** 111.py: an invoice whose suffix no converter handles still yields the
      {root}_invoice_ready.pdf path, although nothing is written there; 106.py
      drops it. */
  lemma UnsupportedInvoice(fs: FileSystem, folder: string, src: string)
    ensures SuffixKind(Lower(src)) == OtherKind ==>
              PrepareInvoice(P111, fs, folder, Some(src))
              == InvoiceResult(Some(Join(folder, ReadyName(Basename(src)))), fs)
    ensures KindOf(Ext(Basename(src))) == OtherKind ==>
              PrepareInvoice(P106, fs, folder, Some(src)) == InvoiceResult(None, fs)
  {
  }

  /** 111.py never loses a PDF invoice: when PdfReader raises, the rotation
      falls back to copying the file. */
  lemma PdfInvoiceKept(fs: FileSystem, folder: string, src: string)
    requires SuffixKind(Lower(src)) == PdfKind
    ensures PrepareInvoice(P111, fs, folder, Some(src)).final == Some(Join(folder, ReadyName(Basename(src))))
  {
    var ready := ReadyName(Basename(src));
    var attempt := Dispatch(PdfKind, Landscape, Landscape, true, fs, src, folder, ready);
    assert attempt.Some? by {
      assert attempt == Rotated(fs, Landscape, true, src, folder, ready);
    }
    assert P111.invoiceStep == ConvertToReady(true, true);
    assert PrepareInvoice(P111, fs, folder, Some(src)) == InvoiceResult(Some(Join(folder, ready)), attempt.value);
  }

  /** 106.py loses a PDF invoice PdfReader cannot open. */
  lemma PdfInvoiceNeedsReader(fs: FileSystem, folder: string, src: string)
    requires KindOf(Ext(Basename(src))) == PdfKind
    ensures PrepareInvoice(P106, fs, folder, Some(src)).final.Some? <==> ReadPdf(fs, src).Some?
  {
    var ready := ReadyName(Basename(src));
    assert Rotated(fs, Landscape, false, src, folder, ready).Some? <==> ReadPdf(fs, src).Some?;
  }

  /** An image or Word invoice survives only when its converter succeeds. */
  lemma ConvertedInvoiceNeedsConverter(p: Policy, fs: FileSystem, folder: string, src: string)
    requires p.invoiceStep.ConvertToReady?
    ensures var kind := if p.invoiceStep.bySuffix then SuffixKind(Lower(src)) else KindOf(Ext(Basename(src)));
            (kind == ImageKind ==>
               (PrepareInvoice(p, fs, folder, Some(src)).final.Some? <==> src in fs.files && fs.files[src].Image?))
            && (kind == WordKind ==>
               (PrepareInvoice(p, fs, folder, Some(src)).final.Some? <==> src in fs.files && fs.files[src].Word?))
  {
    var kind := if p.invoiceStep.bySuffix then SuffixKind(Lower(src)) else KindOf(Ext(Basename(src)));
    var ready := ReadyName(Basename(src));
    if kind == ImageKind || kind == WordKind {
      var attempt := Dispatch(kind, p.rotateRule, p.rotateRule, p.fallback, fs, src, folder, ready);
      assert PrepareInvoice(p, fs, folder, Some(src)).final.Some? <==> attempt.Some?;
    }
  }

  // ---------------------------------------------------------------------
  // The whole function
  // ---------------------------------------------------------------------

  /** (final_list, invoice_final) and the disk afterwards. */
  datatype Prepared = Prepared(list: seq<string>, invoice: Option<string>, fs: FileSystem)

  function PrepareSpec(p: Policy, fs: FileSystem, folder: string): Prepared
    requires IsDir(fs, folder)
  {
    var c := Classify(p, fs, folder, SortNames(ListDir(fs, folder)));
    var inv := PrepareInvoice(p, fs, folder, c.invoice);
    var conv := ConvertAll(p, inv.fs, folder, c.others);
    var head := if p.invoiceListed && inv.final.Some? then [inv.final.value] else [];
    Prepared(head + conv.outputs, inv.final, conv.fs)
  }

  method PrepareFilesForMerge(p: Policy, fs: FileSystem, folder: string) returns (r: Prepared)
    requires IsDir(fs, folder)
    ensures r == PrepareSpec(p, fs, folder)
  {
    var names := SortNames(ListDir(fs, folder));
    var candidate, others := ClassifyListed(p, fs, folder, names);
    var inv := PrepareInvoiceStep(p, fs, folder, candidate);
    var prepared, disk := ConvertEach(p, inv.fs, folder, others);
    var finalList := if p.invoiceListed && inv.final.Some? then [inv.final.value] else [];
    r := Prepared(finalList + prepared, inv.final, disk);
  }

  /** The first loop: the invoice candidate and the other recognised files. */
  method ClassifyListed(p: Policy, fs: FileSystem, folder: string, names: seq<string>)
    returns (candidate: Option<string>, others: seq<string>)
    ensures Classified(candidate, others) == Classify(p, fs, folder, names)
  {
    candidate, others := None, [];
    var i := 0;
    while i < |names|
      invariant 0 <= i <= |names|
      invariant Classified(candidate, others) == Classify(p, fs, folder, names[..i])
    {
      assert names[..i + 1][..i] == names[..i];
      var path := Join(folder, names[i]);
      if IsFile(fs, path) {
        if IsInvoiceName(p, names[i]) {
          candidate := Some(path);
        } else if IsRecognised(names[i]) {
          others := others + [path];
        }
      }
      i := i + 1;
    }
    assert names[..i] == names;
  }

  /** The second loop: convert each file against the disk the earlier
      conversions left, keeping the outputs that were written. */
  method ConvertEach(p: Policy, fs: FileSystem, folder: string, srcs: seq<string>)
    returns (prepared: seq<string>, disk: FileSystem)
    ensures Converted(prepared, disk) == ConvertAll(p, fs, folder, srcs)
  {
    var conv := Converted([], fs);
    var j := 0;
    while j < |srcs|
      invariant 0 <= j <= |srcs|
      invariant conv == ConvertAll(p, fs, folder, srcs[..j])
    {
      assert srcs[..j + 1][..j] == srcs[..j];
      var attempt := ConvertStep(p, conv.fs, folder, srcs[j]);
      if attempt.Some? {
        conv := Converted(conv.outputs + [OutPath(p, folder, srcs[j])], attempt.value);
      }
      j := j + 1;
    }
    assert srcs[..j] == srcs;
    prepared, disk := conv.outputs, conv.fs;
  }

  /** The invoice candidate is the last listed invoice file in code-point
      order, and there is none only when no listed file names an invoice. */
  lemma InvoiceIsLastInOrder(p: Policy, fs: FileSystem, folder: string)
    requires IsDir(fs, folder)
    ensures var c := Classify(p, fs, folder, SortNames(ListDir(fs, folder)));
            (c.invoice.None? <==> forall n :: n in ListDir(fs, folder) ==> !InvoiceAt(p, fs, folder, n))
            && (c.invoice.Some? ==>
                  exists n :: n in ListDir(fs, folder) && InvoiceAt(p, fs, folder, n)
                    && c.invoice.value == Join(folder, n)
                    && forall m :: m in ListDir(fs, folder) && InvoiceAt(p, fs, folder, m) ==> Below(m, n))
  {
    var listed := ListDir(fs, folder);
    SortNamesSorted(listed);
    SortNamesSameNames(listed);
    InvoiceIsLastSorted(p, fs, folder, SortNames(listed));
  }

  /** On a sorted listing the last invoice file is the greatest one. */
  lemma InvoiceIsLastSorted(p: Policy, fs: FileSystem, folder: string, names: seq<string>)
    requires SortedNames(names)
    ensures var c := Classify(p, fs, folder, names);
            (c.invoice.None? <==> forall n :: n in names ==> !InvoiceAt(p, fs, folder, n))
            && (c.invoice.Some? ==>
                  exists n :: n in names && InvoiceAt(p, fs, folder, n)
                    && c.invoice.value == Join(folder, n)
                    && forall m :: m in names && InvoiceAt(p, fs, folder, m) ==> Below(m, n))
  {
    ClassifyInvoiceIsLast(p, fs, folder, names);
    var c := Classify(p, fs, folder, names);
    if c.invoice.Some? {
      var k :| 0 <= k < |names| && InvoiceAt(p, fs, folder, names[k])
               && c.invoice.value == Join(folder, names[k])
               && forall j :: k < j < |names| ==> !InvoiceAt(p, fs, folder, names[j]);
      forall m | m in names && InvoiceAt(p, fs, folder, m) ensures Below(m, names[k]) {
        var j :| 0 <= j < |names| && names[j] == m;
        if j == k { BelowReflexive(m); }
      }
    } else {
      forall m | m in names ensures !InvoiceAt(p, fs, folder, m) {
        var j :| 0 <= j < |names| && names[j] == m;
      }
    }
  }

  /** The timesheets are exactly the listed regular files with a recognised
      extension that do not name the invoice, in ascending order; the invoice
      candidate is never among them. */
  lemma TimesheetsAreTheOtherFiles(p: Policy, fs: FileSystem, folder: string)
    requires IsDir(fs, folder)
    ensures var c := Classify(p, fs, folder, SortNames(ListDir(fs, folder)));
            (forall q :: q in c.others <==>
               exists n :: n in ListDir(fs, folder) && q == Join(folder, n) && TimesheetAt(p, fs, folder, n))
            && SortedNames(c.others)
            && (c.invoice.Some? ==> c.invoice.value !in c.others)
  {
    var listed := ListDir(fs, folder);
    var names := SortNames(listed);
    SortNamesSorted(listed);
    SortNamesSameNames(listed);
    ClassifyOthersSound(p, fs, folder, names);
    ClassifyOthersComplete(p, fs, folder, names);
    forall n | n in names && TimesheetAt(p, fs, folder, n) ensures Join(folder, n) in Classify(p, fs, folder, names).others {
      var k :| 0 <= k < |names| && names[k] == n;
    }
    ClassifyOthersSorted(p, fs, folder, names);
    ClassifyInvoiceIsLast(p, fs, folder, names);
    var c := Classify(p, fs, folder, names);
    if c.invoice.Some? && c.invoice.value in c.others {
      var k :| 0 <= k < |names| && InvoiceAt(p, fs, folder, names[k]) && c.invoice.value == Join(folder, names[k]);
      var n :| n in names && c.invoice.value == Join(folder, n) && TimesheetAt(p, fs, folder, n);
      JoinInjective(folder, n, names[k]);
      assert false;
    }
  }

  /** The returned list: the final invoice first when the revision lists it,
      then the converted timesheets. 114.py returns only the timesheets. */
  lemma ListShape(p: Policy, fs: FileSystem, folder: string)
    requires IsDir(fs, folder)
    ensures var r := PrepareSpec(p, fs, folder);
            var c := Classify(p, fs, folder, SortNames(ListDir(fs, folder)));
            var conv := ConvertAll(p, PrepareInvoice(p, fs, folder, c.invoice).fs, folder, c.others);
            (p.invoiceListed && r.invoice.Some? ==> |r.list| >= 1 && r.list[0] == r.invoice.value && r.list[1..] == conv.outputs)
            && (!(p.invoiceListed && r.invoice.Some?) ==> r.list == conv.outputs)
  {
  }
}
