/** _run_merge of 103.py and 105.py: every raw file the scan listed is
    converted in turn (one step each, a failure skipping only that file), the
    invoice is searched afresh in the week folder, the invoice and the
    converted files are merged, and out_path goes to the ledger. The two
    revisions differ in one respect: 105.py sets out_path to "" when there
    is nothing to merge or the merge raises, while 103.py leaves the
    variable as an earlier client set it (or unbound). */
module Rev103 {
  import opened Text
  import opened Disk
  import opened Folders
  import opened Prepare
  import opened Merge
  import opened Ledger
  import opened Progress

  datatype Variant = As103 | As105

  /** The run state together with out_path (None while unbound). */
  datatype Carry = Carry(st: State, outPath: Option<string>)

  /** A name the invoice search accepts: lower-cased, it ends in ".pdf" and
      contains "invoice". */
  predicate InvoicePdfName(name: string)
  {
    EndsWith(Lower(name), ".pdf") && Contains(Lower(name), "invoice")
  }

  /** The search loop with its break: the first accepted name. */
  function FirstInvoice(names: seq<string>): (r: Option<string>)
    ensures r.Some? ==> r.value in names && InvoicePdfName(r.value)
  {
    if names == [] then None
    else if InvoicePdfName(names[0]) then Some(names[0])
    else FirstInvoice(names[1..])
  }

  method FindInvoice(names: seq<string>) returns (r: Option<string>)
    ensures r == FirstInvoice(names)
  {
    var i := 0;
    while i < |names|
      invariant 0 <= i <= |names|
      invariant FirstInvoice(names[i..]) == FirstInvoice(names)
    {
      assert names[i..][1..] == names[i + 1..];
      if InvoicePdfName(names[i]) {
        return Some(names[i]);
      }
      i := i + 1;
    }
    return None;
  }

  lemma {:induction false} FirstInvoiceSpec(names: seq<string>)
    ensures FirstInvoice(names).None? <==> forall k :: 0 <= k < |names| ==> !InvoicePdfName(names[k])
    ensures FirstInvoice(names).Some? ==>
              exists k :: 0 <= k < |names| && names[k] == FirstInvoice(names).value
                && forall j :: 0 <= j < k ==> !InvoicePdfName(names[j])
  {
    if names != [] && !InvoicePdfName(names[0]) {
      FirstInvoiceSpec(names[1..]);
      if FirstInvoice(names[1..]).Some? {
        var k :| 0 <= k < |names[1..]| && names[1..][k] == FirstInvoice(names[1..]).value
                 && forall j :: 0 <= j < k ==> !InvoicePdfName(names[1..][j]);
        assert names[k + 1] == names[1..][k];
        forall j | 0 <= j < k + 1 ensures !InvoicePdfName(names[j]) {
          if j > 0 { assert names[j] == names[1..][j - 1]; }
        }
      } else {
        forall k | 0 <= k < |names| ensures !InvoicePdfName(names[k]) {
          if k > 0 { assert names[k] == names[1..][k - 1]; }
        }
      }
    } else if names != [] {
      assert names[0] == FirstInvoice(names).value;
    }
  }

  /** On the sorted listing the invoice is the least accepted name, and there
      is none only when no listed name is accepted. Unlike
      collect_files_for_merge, the search neither checks for a regular file
      nor takes the last match. */
  lemma InvoiceIsFirstInOrder(listed: seq<string>)
    ensures var r := FirstInvoice(SortNames(listed));
            (r.None? <==> forall n :: n in listed ==> !InvoicePdfName(n))
            && (r.Some? ==> r.value in listed && InvoicePdfName(r.value)
                            && forall n :: n in listed && InvoicePdfName(n) ==> Below(r.value, n))
  {
    var names := SortNames(listed);
    SortNamesSorted(listed);
    SortNamesSameNames(listed);
    FirstInvoiceSpec(names);
    var r := FirstInvoice(names);
    if r.Some? {
      var k :| 0 <= k < |names| && names[k] == r.value && forall j :: 0 <= j < k ==> !InvoicePdfName(names[j]);
      forall n | n in listed && InvoicePdfName(n) ensures Below(r.value, n) {
        var j :| 0 <= j < |names| && names[j] == n;
        if j == k { BelowReflexive(n); }
      }
    } else {
      forall n | n in listed ensures !InvoicePdfName(n) {
        var j :| 0 <= j < |names| && names[j] == n;
      }
    }
  }

  /** The merge list: the invoice's path first, then the converted files. */
  function MergeList(w: string, invoice: Option<string>, processed: seq<string>): seq<string>
  {
    (if invoice.Some? then [Join(w, invoice.value)] else []) + processed
  }

  /** The merge block. Nothing to merge or a failing merge leaves out_path as
      it was in 103.py and sets it to "" in 105.py. One step. */
  function MergeStep(v: Variant, c: Carry, invoice: Option<string>, processed: seq<string>,
                     client: string, week: string, w: string): Carry
  {
    var list := MergeList(w, invoice, processed);
    var kept := if v == As105 then Some("") else c.outPath;
    if list == [] then Carry(Tick(c.st), kept)
    else
      var name := OutputName(if invoice.Some? then Some(Join(w, invoice.value)) else None, client, week);
      match MergeInto(c.st.fs, list, w, name)
      case None => Carry(Tick(c.st), kept)
      case Some(fs') => Carry(Tick(c.st.(fs := fs')), Some(Join(w, name)))
  }

  /** The ledger block: the first row whose name reads as the client gets
      out_path; reading an unbound out_path raises and is logged. One step. */
  function LedgerStep(c: Carry, client: string): Carry
  {
    if FirstMatch(c.st.rows, StripEquals, client).Some? && c.outPath.Some? then
      Carry(Tick(c.st.(rows := Updated(c.st.rows, StripEquals, client, c.outPath.value))), c.outPath)
    else Carry(Tick(c.st), c.outPath)
  }

  /** The client after its files are converted: listdir of a week path that
      is not a folder raises and ends the client there. */
  function AfterConversion(v: Variant, c: Carry, client: string, week: string, w: string, processed: seq<string>): Carry
  {
    if !IsDir(c.st.fs, w) then c
    else
      var invoice := FirstInvoice(SortNames(ListDir(c.st.fs, w)));
      LedgerStep(MergeStep(v, c, invoice, processed, client, week, w), client)
  }

  /** The state after the folder step and the per-file loop: the converted
      files are on disk and one step per file is counted. */
  function ConvertStage(c: Carry, w: string, files: seq<string>): Carry
  {
    c.(st := c.st.(fs := ConvertAll(PCollect, c.st.fs, w, files).fs, done := c.st.done + 1 + |files|))
  }

  function Client(v: Variant, c: Carry, week: string, item: ScanItem): Carry
  {
    if !(item.week.Some? && item.week.value != []) then c.(st := Tick(c.st))
    else AfterConversion(v, ConvertStage(c, item.week.value, item.files), item.client, week, item.week.value,
                         ConvertAll(PCollect, c.st.fs, item.week.value, item.files).outputs)
  }

  function Run(v: Variant, c: Carry, week: string, items: seq<ScanItem>): Carry
  {
    if items == [] then c
    else Client(v, Run(v, c, week, items[..|items| - 1]), week, items[|items| - 1])
  }

  lemma RunUnfolds(v: Variant, c: Carry, week: string, items: seq<ScanItem>, i: nat)
    requires i < |items|
    ensures Run(v, c, week, items[..i + 1]) == Client(v, Run(v, c, week, items[..i]), week, items[i])
  {
    assert items[..i + 1][..i] == items[..i];
  }

  method ProcessClient(s: Session, v: Variant, outPath: Option<string>, week: string, item: ScanItem)
    returns (outPath': Option<string>)
    modifies s, s.sheet
    ensures Carry(s.Snapshot(), outPath') == Client(v, Carry(old(s.Snapshot()), outPath), week, item)
  {
    if !(item.week.Some? && item.week.value != []) {
      outPath' := outPath;
      s.Increment();
      return;
    }
    outPath' := ProcessWeek(s, v, outPath, week, item);
  }

  /** A client whose scan found a week folder. */
  method ProcessWeek(s: Session, v: Variant, outPath: Option<string>, week: string, item: ScanItem)
    returns (outPath': Option<string>)
    requires item.week.Some? && item.week.value != []
    modifies s, s.sheet
    ensures Carry(s.Snapshot(), outPath') == Client(v, Carry(old(s.Snapshot()), outPath), week, item)
  {
    var w := item.week.value;
    ghost var st0 := s.Snapshot();
    s.Increment();
    var processed := ConvertFiles(s, w, item.files);
    assert Converted(processed, s.fs) == ConvertAll(PCollect, st0.fs, w, item.files);
    assert Carry(s.Snapshot(), outPath) == ConvertStage(Carry(st0, outPath), w, item.files);
    outPath' := AfterBlock(s, v, outPath, item.client, week, w, processed);
  }

  method AfterBlock(s: Session, v: Variant, outPath: Option<string>, client: string, week: string, w: string,
                    processed: seq<string>)
    returns (outPath': Option<string>)
    modifies s, s.sheet
    ensures Carry(s.Snapshot(), outPath') == AfterConversion(v, Carry(old(s.Snapshot()), outPath), client, week, w, processed)
  {
    outPath' := outPath;
    if !IsDir(s.fs, w) {
      return;
    }
    var names := SortNames(ListDir(s.fs, w));
    var invoice := FindInvoice(names);
    var out := MergeBlock(s, v, outPath, invoice, processed, client, week, w);
    outPath' := LedgerBlock(s, out, client);
  }

  /** The per-file loop: convert, keep the output when the conversion
      succeeds, and count a step either way. */
  method ConvertFiles(s: Session, w: string, files: seq<string>) returns (processed: seq<string>)
    modifies s
    ensures Converted(processed, s.fs) == ConvertAll(PCollect, old(s.fs), w, files)
    ensures s.Snapshot() == old(s.Snapshot()).(fs := s.fs, done := old(s.tasksDone) + |files|)
  {
    ghost var fs0 := s.fs;
    var conv := Converted([], s.fs);
    var i := 0;
    while i < |files|
      invariant 0 <= i <= |files|
      invariant conv == ConvertAll(PCollect, fs0, w, files[..i])
      invariant s.Snapshot() == old(s.Snapshot()).(done := old(s.tasksDone) + i)
    {
      assert files[..i + 1][..i] == files[..i];
      var attempt := ConvertStep(PCollect, conv.fs, w, files[i]);
      if attempt.Some? {
        conv := Converted(conv.outputs + [OutPath(PCollect, w, files[i])], attempt.value);
      }
      s.Increment();
      i := i + 1;
    }
    assert files[..i] == files;
    processed := conv.outputs;
    s.fs := conv.fs;
  }

  method MergeBlock(s: Session, v: Variant, outPath: Option<string>, invoice: Option<string>,
                    processed: seq<string>, client: string, week: string, w: string)
    returns (outPath': Option<string>)
    modifies s
    ensures Carry(s.Snapshot(), outPath') == MergeStep(v, Carry(old(s.Snapshot()), outPath), invoice, processed, client, week, w)
  {
    outPath' := outPath;
    var list := MergeList(w, invoice, processed);
    if list != [] {
      var name := OutputName(if invoice.Some? then Some(Join(w, invoice.value)) else None, client, week);
      var written := MergeAndWrite(s.fs, list, w, name);
      if written.Some? {
        s.fs := written.value;
        outPath' := Some(Join(w, name));
      } else if v == As105 {
        outPath' := Some("");
      }
    } else if v == As105 {
      outPath' := Some("");
    }
    s.Increment();
  }

  method LedgerBlock(s: Session, outPath: Option<string>, client: string) returns (outPath': Option<string>)
    modifies s, s.sheet
    ensures Carry(s.Snapshot(), outPath') == LedgerStep(Carry(old(s.Snapshot()), outPath), client)
  {
    outPath' := outPath;
    if outPath.Some? {
      var found := UpdateLedger(s.sheet, StripEquals, client, outPath.value);
    }
    s.Increment();
  }

  method RunMerge(s: Session, v: Variant, bookOpen: bool, week: string, items: seq<ScanItem>) returns (success: bool)
    modifies s, s.sheet
    ensures success == bookOpen
    ensures s.Snapshot() == if bookOpen then Run(v, Carry(old(s.Snapshot()), None), week, items).st
                            else old(s.Snapshot())
  {
    if !bookOpen {
      return false;
    }
    var outPath := MergeClients(s, v, week, items);
    success := true;
  }

  /** The loop over the scanned clients, out_path unbound at the start. */
  method MergeClients(s: Session, v: Variant, week: string, items: seq<ScanItem>) returns (outPath: Option<string>)
    modifies s, s.sheet
    ensures Carry(s.Snapshot(), outPath) == Run(v, Carry(old(s.Snapshot()), None), week, items)
  {
    ghost var c0 := Carry(s.Snapshot(), None);
    outPath := None;
    var i := 0;
    while i < |items|
      invariant 0 <= i <= |items|
      invariant Carry(s.Snapshot(), outPath) == Run(v, c0, week, items[..i])
    {
      RunUnfolds(v, c0, week, items, i);
      outPath := ProcessClient(s, v, outPath, week, items[i]);
      i := i + 1;
    }
    assert items[..i] == items;
  }

  // ---------------------------------------------------------------------
  // Properties
  // ---------------------------------------------------------------------

  /** A client takes exactly its estimated steps when its week folder is a
      folder, and the folders of the disk are never changed. */
  lemma ClientMatchesEstimate(v: Variant, c: Carry, week: string, item: ScanItem)
    requires EstimateHolds(item)
    requires item.week.Some? && item.week.value != [] ==> IsDir(c.st.fs, item.week.value)
    ensures Client(v, c, week, item).st.done == c.st.done + item.tasks
    ensures Client(v, c, week, item).st.fs.dirs.Keys == c.st.fs.dirs.Keys
  {
    if item.week.Some? && item.week.value != [] {
      ConvertAllKeepsDirs(PCollect, c.st.fs, item.week.value, item.files);
    }
  }

  /** Over a run whose scanned week folders are folders, the progress counter
      ends at the scan's total. */
  lemma {:induction false} RunMatchesEstimate(v: Variant, c: Carry, week: string, items: seq<ScanItem>)
    requires forall i :: 0 <= i < |items| ==> EstimateHolds(items[i])
    requires forall i :: 0 <= i < |items| && items[i].week.Some? && items[i].week.value != [] ==>
               IsDir(c.st.fs, items[i].week.value)
    ensures Run(v, c, week, items).st.done == c.st.done + TotalTasks(items)
    ensures Run(v, c, week, items).st.fs.dirs.Keys == c.st.fs.dirs.Keys
  {
    if items != [] {
      var front := items[..|items| - 1];
      RunMatchesEstimate(v, c, week, front);
      ClientMatchesEstimate(v, Run(v, c, week, front), week, items[|items| - 1]);
    }
  }

  /** As written (103.py): with nothing to merge, the client's row receives
      the out_path an earlier client's merge left behind. */
  lemma StaleOutPathRecorded(c: Carry, client: string, week: string, w: string)
    requires c.outPath.Some?
    requires FirstMatch(c.st.rows, StripEquals, client).Some?
    ensures var m := FirstMatch(c.st.rows, StripEquals, client).value;
            var r := LedgerStep(MergeStep(As103, c, None, [], client, week, w), client);
            m < |r.st.rows| && r.st.rows[m].path == Text(c.outPath.value)
  {
    UpdatedChangesOneCell(c.st.rows, StripEquals, client, c.outPath.value);
  }

  /** A concrete instance: client "B" has neither an invoice nor a converted
      file, and its row receives client A's merged path. */
  lemma StaleOutPathExample()
    ensures var rows := [Row(Empty, Empty), Row(Empty, Empty), Row(Empty, Empty), Row(Text("B"), Empty)];
            var c := Carry(State(FileSystem(map[], map[]), rows, NoTally, 0), Some("A\\Week 05-07\\A_invoice_.pdf"));
            var r := LedgerStep(MergeStep(As103, c, None, [], "B", "05-07", "B\\Week 05-07"), "B");
            r.st.rows[3].path == Text("A\\Week 05-07\\A_invoice_.pdf")
  {
    var rows := [Row(Empty, Empty), Row(Empty, Empty), Row(Empty, Empty), Row(Text("B"), Empty)];
    assert Strip("B") == "B" by {
      StripUnchanged("B");
    }
    assert FirstMatch(rows, StripEquals, "B") == Some(3) by {
      assert Matches(StripEquals, rows[3].name, "B");
      assert FirstMatchFrom(rows, StripEquals, "B", 3) == Some(3);
    }
    var c := Carry(State(FileSystem(map[], map[]), rows, NoTally, 0), Some("A\\Week 05-07\\A_invoice_.pdf"));
    StaleOutPathRecorded(c, "B", "05-07", "B\\Week 05-07");
  }

  /** 105.py: the path recorded for a client is "" or the file its own merge
      just wrote, which holds the pages of the invoice and the converted
      files, the invoice's first. */
  lemma RecordsOwnOutput(c: Carry, invoice: Option<string>, processed: seq<string>,
                         client: string, week: string, w: string)
    ensures var m := MergeStep(As105, c, invoice, processed, client, week, w);
            var list := MergeList(w, invoice, processed);
            m.outPath.Some?
            && (m.outPath.value == "" ||
                  (m.outPath.value == Join(w, OutputName(if invoice.Some? then Some(Join(w, invoice.value)) else None, client, week))
                   && ReadPdf(m.st.fs, m.outPath.value) == MergedPages(c.st.fs, list)))
            && (list == [] || MergedPages(c.st.fs, list).None? ==> m.outPath == Some("") && m.st.fs == c.st.fs)
    ensures var m := MergeStep(As105, c, invoice, processed, client, week, w);
            var r := LedgerStep(m, client);
            FirstMatch(m.st.rows, StripEquals, client).Some? ==>
              var k := FirstMatch(m.st.rows, StripEquals, client).value;
              k < |r.st.rows| && r.st.rows[k].path == Text(m.outPath.value)
  {
    var m := MergeStep(As105, c, invoice, processed, client, week, w);
    UpdatedChangesOneCell(m.st.rows, StripEquals, client, m.outPath.value);
  }

  /** The merged file begins with the invoice's pages. */
  lemma InvoicePagesLead(fs: FileSystem, w: string, invoice: string, processed: seq<string>)
    requires MergedPages(fs, MergeList(w, Some(invoice), processed)).Some?
    ensures ReadPdf(fs, Join(w, invoice)).Some? && MergedPages(fs, processed).Some?
    ensures MergedPages(fs, MergeList(w, Some(invoice), processed)).value
            == ReadPdf(fs, Join(w, invoice)).value + MergedPages(fs, processed).value
  {
    InvoicePagesFirst(fs, Join(w, invoice), processed);
  }

  lemma AfterKeepsNames(v: Variant, c: Carry, client: string, week: string, w: string, processed: seq<string>)
    ensures var r := AfterConversion(v, c, client, week, w, processed).st;
            |r.rows| == |c.st.rows| && forall j :: 0 <= j < |c.st.rows| ==> r.rows[j].name == c.st.rows[j].name
  {
    if IsDir(c.st.fs, w) {
      var invoice := FirstInvoice(SortNames(ListDir(c.st.fs, w)));
      var m := MergeStep(v, c, invoice, processed, client, week, w);
      assert m.st.rows == c.st.rows;
      if m.outPath.Some? {
        UpdatedChangesOneCell(m.st.rows, StripEquals, client, m.outPath.value);
      }
    }
  }

  /** One client never changes column B or the number of rows. */
  lemma ClientKeepsNames(v: Variant, c: Carry, week: string, item: ScanItem)
    ensures var r := Client(v, c, week, item).st;
            |r.rows| == |c.st.rows| && forall j :: 0 <= j < |c.st.rows| ==> r.rows[j].name == c.st.rows[j].name
  {
    if item.week.Some? && item.week.value != [] {
      var w := item.week.value;
      AfterKeepsNames(v, ConvertStage(c, w, item.files), item.client, week, w,
                      ConvertAll(PCollect, c.st.fs, w, item.files).outputs);
    }
  }

  /** A run over scanned week folders ends with the bar at exactly 100. */
  lemma RunEndsAtHundred(v: Variant, fs: FileSystem, rows: seq<Row>, week: string, items: seq<ScanItem>)
    requires forall i :: 0 <= i < |items| ==> EstimateHolds(items[i])
    requires forall i :: 0 <= i < |items| && items[i].week.Some? && items[i].week.value != [] ==>
               IsDir(fs, items[i].week.value)
    requires 0 < TotalTasks(items)
    ensures Percent(Run(v, Carry(State(fs, rows, NoTally, 0), None), week, items).st.done, TotalTasks(items), false) == 100
  {
    RunMatchesEstimate(v, Carry(State(fs, rows, NoTally, 0), None), week, items);
    PercentWithinEstimate(TotalTasks(items), TotalTasks(items), false);
  }

  /** Column B and the number of rows are never changed by a run. */
  lemma {:induction false} RunKeepsNames(v: Variant, c: Carry, week: string, items: seq<ScanItem>)
    ensures var r := Run(v, c, week, items).st;
            |r.rows| == |c.st.rows| && forall j :: 0 <= j < |c.st.rows| ==> r.rows[j].name == c.st.rows[j].name
  {
    if items != [] {
      RunKeepsNames(v, c, week, items[..|items| - 1]);
      ClientKeepsNames(v, Run(v, c, week, items[..|items| - 1]), week, items[|items| - 1]);
    }
  }
}
