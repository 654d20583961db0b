/** _merge_thread of 114.py: for every scanned client, find the week folder,
    prepare its files (the invoice kept apart), merge the invoice and the
    timesheets into one PDF and record its path in the ledger, counting the
    steps and the processed, merged, warning and error totals. */
module Rev114 {
  import opened Text
  import opened Disk
  import opened Folders
  import opened Prepare
  import opened Merge
  import opened Ledger
  import opened Progress

  /** The week folder a client is processed in: the one found by the scan, or
      (when the scan found none) a fresh search. */
  function WeekPath(fs: FileSystem, root: string, week: string, item: ScanItem): Option<string>
  {
    if item.week.Some? && item.week.value != [] then item.week else WeekFolder(fs, root, week)
  }

  /** What the merger is given: the invoice first, then the prepared timesheets. */
  function MergeInputs(prep: Prepared): seq<string>
  {
    (if prep.invoice.Some? then [prep.invoice.value] else []) + prep.list
  }

  /** The state after the merge block, and out_path. */
  datatype Merged = Merged(st: State, outPath: string)

  /** The merge block: nothing to merge is a warning; a failing merge is an
      error and leaves out_path empty; a merge writes the output file and
      counts it. One step in every case. */
  function MergeStep(st: State, prep: Prepared, client: string, week: string, w: string): Merged
  {
    if prep.list == [] then Merged(Tick(AddWarning(st)), "")
    else
      var name := OutputName(prep.invoice, client, week);
      match MergeInto(st.fs, MergeInputs(prep), w, name)
      case None => Merged(Tick(AddError(st)), "")
      case Some(fs') => Merged(Tick(st.(fs := fs', tally := st.tally.(merged := st.tally.merged + 1))), Join(w, name))
  }

  /** The ledger block: the first row matching the client (exactly or
      case-insensitively) receives `value`; no such row is a warning. */
  function LedgerStep(st: State, client: string, value: string): State
  {
    var st1 := if FirstMatch(st.rows, TruthyStripOrFold, client).None? then AddWarning(st) else st;
    Tick(st1.(rows := Updated(st.rows, TruthyStripOrFold, client, value)))
  }

  /** A client whose week folder exists. */
  function Found(st: State, client: string, week: string, w: string): State
    requires IsDir(st.fs, w)
  {
    var prep := PrepareSpec(P114, st.fs, w);
    var m := MergeStep(Tick(st.(fs := prep.fs)), prep, client, week, w);
    var st1 := LedgerStep(m.st, client, if prep.list != [] then m.outPath else "");
    st1.(tally := st1.tally.(processed := st1.tally.processed + 1))
  }

  /** One iteration of the client loop. A missing client folder is an error
      and a missing week folder a warning, one step each; a week path that is
      not a folder makes listdir raise, which the outer handler counts as an
      error and one more step. */
  function Client(st: State, mainFolder: string, week: string, item: ScanItem): State
  {
    var root := Join(mainFolder, item.client);
    if !IsDir(st.fs, root) then Tick(AddError(st))
    else
      var wk := WeekPath(st.fs, root, week, item);
      if wk.None? then Tick(AddWarning(st))
      else if !IsDir(st.fs, wk.value) then Tick(AddError(Tick(st)))
      else Found(Tick(st), item.client, week, wk.value)
  }

  /** The client loop over the scanned items, in order. */
  function Run(st: State, mainFolder: string, week: string, items: seq<ScanItem>): State
  {
    if items == [] then st
    else Client(Run(st, mainFolder, week, items[..|items| - 1]), mainFolder, week, items[|items| - 1])
  }

  method ProcessClient(s: Session, mainFolder: string, week: string, item: ScanItem)
    modifies s, s.sheet
    ensures s.Snapshot() == Client(old(s.Snapshot()), mainFolder, week, item)
  {
    var root := Join(mainFolder, item.client);
    if !IsDir(s.fs, root) {
      s.Fail();
      s.Increment();
      return;
    }
    var wk := item.week;
    if !(wk.Some? && wk.value != []) {
      wk := FindWeekFolder(s.fs, root, week);
    }
    if wk.None? {
      s.Warn();
      s.Increment();
      return;
    }
    s.Increment();
    if !IsDir(s.fs, wk.value) {
      s.Fail();
      s.Increment();
      return;
    }
    ProcessFound(s, item.client, week, wk.value);
  }

  method ProcessFound(s: Session, client: string, week: string, w: string)
    requires IsDir(s.fs, w)
    modifies s, s.sheet
    ensures s.Snapshot() == Found(old(s.Snapshot()), client, week, w)
  {
    ghost var st0 := s.Snapshot();
    var prep := PrepareFilesForMerge(P114, s.fs, w);
    s.fs := prep.fs;
    s.Increment();
    ghost var st1 := s.Snapshot();
    assert st1 == Tick(st0.(fs := prep.fs));
    var outPath := MergeBlock(s, prep, client, week, w);
    ghost var m := Merged(s.Snapshot(), outPath);
    assert m == MergeStep(st1, prep, client, week, w);
    LedgerBlock(s, client, if prep.list != [] then outPath else "");
    s.tally := s.tally.(processed := s.tally.processed + 1);
  }

  method LedgerBlock(s: Session, client: string, value: string)
    modifies s, s.sheet
    ensures s.Snapshot() == LedgerStep(old(s.Snapshot()), client, value)
  {
    var found := UpdateLedger(s.sheet, TruthyStripOrFold, client, value);
    if !found {
      s.Warn();
    }
    s.Increment();
  }

  method MergeBlock(s: Session, prep: Prepared, client: string, week: string, w: string) returns (outPath: string)
    modifies s
    ensures Merged(s.Snapshot(), outPath) == MergeStep(old(s.Snapshot()), prep, client, week, w)
  {
    outPath := "";
    if prep.list != [] {
      var name := OutputName(prep.invoice, client, week);
      var written := MergeAndWrite(s.fs, MergeInputs(prep), w, name);
      if written.Some? {
        s.fs := written.value;
        outPath := Join(w, name);
        s.tally := s.tally.(merged := s.tally.merged + 1);
      } else {
        s.Fail();
      }
    } else {
      s.Warn();
    }
    s.Increment();
  }

  /** The whole thread: nothing happens when the workbook cannot be opened
      (the run finishes unsuccessfully); otherwise every client in turn. */
  method MergeThread(s: Session, bookOpen: bool, mainFolder: string, week: string, items: seq<ScanItem>)
    returns (success: bool)
    modifies s, s.sheet
    ensures success == bookOpen
    ensures s.Snapshot() == if bookOpen then Run(old(s.Snapshot()), mainFolder, week, items) else old(s.Snapshot())
  {
    if !bookOpen {
      return false;
    }
    ghost var st0 := s.Snapshot();
    var i := 0;
    while i < |items|
      invariant 0 <= i <= |items|
      invariant s.Snapshot() == Run(st0, mainFolder, week, items[..i])
    {
      ProcessClient(s, mainFolder, week, items[i]);
      assert s.Snapshot() == Run(st0, mainFolder, week, items[..i + 1]) by {
        assert items[..i + 1][..i] == items[..i];
      }
      i := i + 1;
    }
    assert items[..i] == items;
    success := true;
  }

  // ---------------------------------------------------------------------
  // Properties
  // ---------------------------------------------------------------------


  /** Processed against the disk it was scanned on, a client takes exactly the
      steps the scan estimated: one without a week folder, four with one. */
  lemma ClientMatchesEstimate(st: State, mainFolder: string, week: string, item: ScanItem)
    requires item == ScanClient(st.fs, mainFolder, item.client, week, FourSteps)
    ensures Client(st, mainFolder, week, item).done == st.done + item.tasks
  {
    var root := Join(mainFolder, item.client);
    if item.week.Some? {
      WeekFolderIsDir(st.fs, root, week);
      WeekFolderIsFirstMonth(st.fs, root, week);
      assert WeekPath(st.fs, root, week, item) == item.week;
    }
  }

  /** The counter changes one client causes: at most one processed, a merge
      only for a processed client, and a skipped client always leaves a
      warning or an error. The step count is between one and four. */
  lemma ClientCounters(st: State, mainFolder: string, week: string, item: ScanItem)
    ensures var t, t' := st.tally, Client(st, mainFolder, week, item).tally;
            t'.processed <= t.processed + 1
            && t.processed <= t'.processed
            && t.merged <= t'.merged
            && t'.merged - t.merged <= t'.processed - t.processed
            && t.warnings <= t'.warnings && t.errors <= t'.errors
            && (t'.processed == t.processed ==> t'.warnings + t'.errors > t.warnings + t.errors)
    ensures st.done + 1 <= Client(st, mainFolder, week, item).done <= st.done + 4
  {
    var root := Join(mainFolder, item.client);
    if IsDir(st.fs, root) {
      var wk := WeekPath(st.fs, root, week, item);
      if wk.Some? && IsDir(st.fs, wk.value) {
        FoundCounters(Tick(st), item.client, week, wk.value);
      }
    }
  }

  /** A client whose week folder exists is processed once, merged at most
      once, never lowers a counter and takes three steps. */
  lemma FoundCounters(st: State, client: string, week: string, w: string)
    requires IsDir(st.fs, w)
    ensures var t, t' := st.tally, Found(st, client, week, w).tally;
            t'.processed == t.processed + 1
            && t.merged <= t'.merged <= t.merged + 1
            && t.warnings <= t'.warnings && t.errors <= t'.errors
    ensures Found(st, client, week, w).done == st.done + 3
  {
    var prep := PrepareSpec(P114, st.fs, w);
    var st0 := Tick(st.(fs := prep.fs));
    var m := MergeStep(st0, prep, client, week, w);
    MergeStepCounts(st0, prep, client, week, w);
    LedgerStepCounts(m.st, client, if prep.list != [] then m.outPath else "");
  }

  lemma MergeStepCounts(st: State, prep: Prepared, client: string, week: string, w: string)
    ensures var t, t' := st.tally, MergeStep(st, prep, client, week, w).st.tally;
            t'.processed == t.processed && t.merged <= t'.merged <= t.merged + 1
            && t.warnings <= t'.warnings && t.errors <= t'.errors
    ensures MergeStep(st, prep, client, week, w).st.done == st.done + 1
  {
  }

  lemma LedgerStepCounts(st: State, client: string, value: string)
    ensures var t, t' := st.tally, LedgerStep(st, client, value).tally;
            t'.processed == t.processed && t'.merged == t.merged
            && t.warnings <= t'.warnings && t'.errors == t.errors
    ensures LedgerStep(st, client, value).done == st.done + 1
  {
  }

  /** Over a whole run from zeroed counters: merged <= processed <= clients,
      every client not processed leaves a warning or an error, and the
      progress counter advances one to four steps per client. */
  lemma {:induction false} RunCounters(st: State, mainFolder: string, week: string, items: seq<ScanItem>)
    requires st.tally == NoTally && st.done == 0
    ensures var r := Run(st, mainFolder, week, items);
            r.tally.merged <= r.tally.processed <= |items|
            && |items| <= r.tally.processed + r.tally.warnings + r.tally.errors
            && |items| <= r.done <= 4 * |items|
  {
    if items != [] {
      var front := items[..|items| - 1];
      RunCounters(st, mainFolder, week, front);
      ClientCounters(Run(st, mainFolder, week, front), mainFolder, week, items[|items| - 1]);
    }
  }

  /** Column B and the number of rows are never changed by a run. */
  lemma {:induction false} RunKeepsNames(st: State, mainFolder: string, week: string, items: seq<ScanItem>)
    ensures var r := Run(st, mainFolder, week, items);
            |r.rows| == |st.rows| && forall j :: 0 <= j < |st.rows| ==> r.rows[j].name == st.rows[j].name
  {
    if items != [] {
      var front := items[..|items| - 1];
      RunKeepsNames(st, mainFolder, week, front);
      var mid := Run(st, mainFolder, week, front);
      var item := items[|items| - 1];
      var root := Join(mainFolder, item.client);
      if IsDir(mid.fs, root) {
        var wk := WeekPath(mid.fs, root, week, item);
        if wk.Some? && IsDir(mid.fs, wk.value) {
          FoundKeepsNames(Tick(mid), item.client, week, wk.value);
        }
      }
    }
  }

  lemma FoundKeepsNames(st: State, client: string, week: string, w: string)
    requires IsDir(st.fs, w)
    ensures var r := Found(st, client, week, w);
            |r.rows| == |st.rows| && forall j :: 0 <= j < |st.rows| ==> r.rows[j].name == st.rows[j].name
  {
    var prep := PrepareSpec(P114, st.fs, w);
    var m := MergeStep(Tick(st.(fs := prep.fs)), prep, client, week, w);
    UpdatedChangesOneCell(m.st.rows, TruthyStripOrFold, client, if prep.list != [] then m.outPath else "");
  }

  /** With timesheets prepared, a successful merge writes a file whose pages
      are the invoice's followed by the timesheets', records its path as
      out_path and counts it; a failing merge (a source PdfReader cannot
      open) changes no file and leaves out_path empty; with no timesheet,
      nothing is merged, even when there is an invoice. */
  lemma MergeStepOutcome(st: State, prep: Prepared, client: string, week: string, w: string)
    ensures var m := MergeStep(st, prep, client, week, w);
            var name := OutputName(prep.invoice, client, week);
            (prep.list == [] ==> m.outPath == "" && m.st.fs == st.fs && m.st.tally.warnings == st.tally.warnings + 1)
            && (prep.list != [] && MergedPages(st.fs, MergeInputs(prep)).None? ==>
                  m.outPath == "" && m.st.fs == st.fs && m.st.tally.errors == st.tally.errors + 1)
            && (prep.list != [] && MergedPages(st.fs, MergeInputs(prep)).Some? ==>
                  m.outPath == Join(w, name) && m.st.tally.merged == st.tally.merged + 1
                  && WritesOnly(st.fs, m.st.fs, m.outPath)
                  && (prep.invoice.Some? ==>
                        ReadPdf(st.fs, prep.invoice.value).Some? && MergedPages(st.fs, prep.list).Some?
                        && ReadPdf(m.st.fs, m.outPath)
                        == Some(ReadPdf(st.fs, prep.invoice.value).value + MergedPages(st.fs, prep.list).value))
                  && (prep.invoice.None? ==> ReadPdf(m.st.fs, m.outPath) == MergedPages(st.fs, prep.list)))
  {
    if prep.list != [] && MergedPages(st.fs, MergeInputs(prep)).Some? && prep.invoice.Some? {
      InvoicePagesFirst(st.fs, prep.invoice.value, prep.list);
    }
    if prep.invoice.None? {
      assert MergeInputs(prep) == prep.list;
    }
  }
}
