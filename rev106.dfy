/** _run_merge of 106.py and 108.py (the two are the same loop): the week
    folder comes from the scan only, a failing preparation degrades to an
    empty list, one step is counted per scanned raw file, out_path is "" when
    nothing was merged, and the ledger row is matched by str(cell).strip(). */
module Rev106 {
  import opened Text
  import opened Disk
  import opened Folders
  import opened Prepare
  import opened Merge
  import opened Ledger
  import opened Progress

  /** The preparation in its try block: listdir on a path that is not a
      folder raises, and the client goes on with ([], None). */
  function PrepareOrEmpty(fs: FileSystem, w: string): Prepared
  {
    if IsDir(fs, w) then PrepareSpec(P106, fs, w) else Prepared([], None, fs)
  }

  /** The merge block: out_path is the written file, or "" when the list is
      empty or the merge raises. One step. */
  function MergeStep(st: State, prep: Prepared, client: string, week: string, w: string): (State, string)
  {
    if prep.list == [] then (Tick(st), "")
    else
      var name := OutputName(prep.invoice, client, week);
      match MergeInto(st.fs, prep.list, w, name)
      case None => (Tick(st), "")
      case Some(fs') => (Tick(st.(fs := fs')), Join(w, name))
  }

  /** The ledger block: the first row whose name reads as the client gets
      out_path. One step. */
  function LedgerStep(st: State, client: string, outPath: string): State
  {
    Tick(st.(rows := Updated(st.rows, StripEquals, client, outPath)))
  }

  /** The state after the folder step, the preparation and one step per
      scanned raw file. */
  function PrepStage(st: State, w: string, files: seq<string>): State
  {
    Tick(st).(fs := PrepareOrEmpty(st.fs, w).fs, done := st.done + 1 + |files|)
  }

  /** The merge block followed by the ledger block. */
  function AfterPrep(st: State, prep: Prepared, client: string, week: string, w: string): State
  {
    var (st2, out) := MergeStep(st, prep, client, week, w);
    LedgerStep(st2, client, out)
  }

  function Client(st: State, week: string, item: ScanItem): State
  {
    if !(item.week.Some? && item.week.value != []) then Tick(st)
    else AfterPrep(PrepStage(st, item.week.value, item.files), PrepareOrEmpty(st.fs, item.week.value), item.client,
                   week, item.week.value)
  }

  function Run(st: State, week: string, items: seq<ScanItem>): State
  {
    if items == [] then st
    else Client(Run(st, week, items[..|items| - 1]), week, items[|items| - 1])
  }

  method ProcessClient(s: Session, week: string, item: ScanItem)
    modifies s, s.sheet
    ensures s.Snapshot() == Client(old(s.Snapshot()), week, item)
  {
    if !(item.week.Some? && item.week.value != []) {
      s.Increment();
      return;
    }
    var w := item.week.value;
    ghost var st0 := s.Snapshot();
    s.Increment();
    var prep: Prepared;
    if IsDir(s.fs, w) {
      prep := PrepareFilesForMerge(P106, s.fs, w);
    } else {
      prep := Prepared([], None, s.fs);
    }
    assert prep == PrepareOrEmpty(st0.fs, w);
    s.fs := prep.fs;
    CountFiles(s, |item.files|);
    assert s.Snapshot() == PrepStage(st0, w, item.files);
    AfterBlock(s, prep, item.client, week, w);
  }

  /** The per-file loop: one step per scanned raw file. */
  method CountFiles(s: Session, n: nat)
    modifies s
    ensures s.Snapshot() == old(s.Snapshot()).(done := old(s.tasksDone) + n)
  {
    var k := 0;
    while k < n
      invariant 0 <= k <= n
      invariant s.Snapshot() == old(s.Snapshot()).(done := old(s.tasksDone) + k)
    {
      s.Increment();
      k := k + 1;
    }
  }

  method AfterBlock(s: Session, prep: Prepared, client: string, week: string, w: string)
    modifies s, s.sheet
    ensures s.Snapshot() == AfterPrep(old(s.Snapshot()), prep, client, week, w)
  {
    var out := MergeBlock(s, prep, client, week, w);
    var found := UpdateLedger(s.sheet, StripEquals, client, out);
    s.Increment();
  }

  method MergeBlock(s: Session, prep: Prepared, client: string, week: string, w: string) returns (outPath: string)
    modifies s
    ensures (s.Snapshot(), outPath) == MergeStep(old(s.Snapshot()), prep, client, week, w)
  {
    outPath := "";
    if prep.list != [] {
      var name := OutputName(prep.invoice, client, week);
      var written := MergeAndWrite(s.fs, prep.list, w, name);
      if written.Some? {
        s.fs := written.value;
        outPath := Join(w, name);
      }
    }
    s.Increment();
  }

  method RunMerge(s: Session, bookOpen: bool, week: string, items: seq<ScanItem>) returns (success: bool)
    modifies s, s.sheet
    ensures success == bookOpen
    ensures s.Snapshot() == if bookOpen then Run(old(s.Snapshot()), week, items) else old(s.Snapshot())
  {
    if !bookOpen {
      return false;
    }
    ghost var st0 := s.Snapshot();
    var i := 0;
    while i < |items|
      invariant 0 <= i <= |items|
      invariant s.Snapshot() == Run(st0, week, items[..i])
    {
      ProcessClient(s, week, items[i]);
      assert s.Snapshot() == Run(st0, week, items[..i + 1]) by {
        assert items[..i + 1][..i] == items[..i];
      }
      i := i + 1;
    }
    assert items[..i] == items;
    success := true;
  }

  // ---------------------------------------------------------------------
  // Properties
  // ---------------------------------------------------------------------

  /** Every client takes exactly the steps the scan estimated for it, whatever
      happens on the disk. */
  lemma {:induction false} RunMatchesEstimate(st: State, week: string, items: seq<ScanItem>)
    requires forall i :: 0 <= i < |items| ==> EstimateHolds(items[i])
    ensures Run(st, week, items).done == st.done + TotalTasks(items)
  {
    if items != [] {
      RunMatchesEstimate(st, week, items[..|items| - 1]);
      var mid := Run(st, week, items[..|items| - 1]);
      var item := items[|items| - 1];
      assert EstimateHolds(item);
      if item.week.Some? && item.week.value != [] {
        var w := item.week.value;
        var prep := PrepareOrEmpty(mid.fs, w);
        var st1 := PrepStage(mid, w, item.files);
        assert MergeStep(st1, prep, item.client, week, w).0.done == st1.done + 1;
      }
    }
  }

  /** Hence a run over scanned items ends with the bar at exactly 100. */
  lemma RunEndsAtHundred(fs: FileSystem, rows: seq<Row>, week: string, items: seq<ScanItem>)
    requires forall i :: 0 <= i < |items| ==> EstimateHolds(items[i])
    requires 0 < TotalTasks(items)
    ensures Percent(Run(State(fs, rows, NoTally, 0), week, items).done, TotalTasks(items), false) == 100
  {
    RunMatchesEstimate(State(fs, rows, NoTally, 0), week, items);
    PercentWithinEstimate(TotalTasks(items), TotalTasks(items), false);
  }

  /** out_path is "" when nothing was prepared or the merge raised; otherwise
      it is the file just written, holding the pages of the prepared list
      (the converted invoice's first). */
  lemma MergeStepOutcome(st: State, prep: Prepared, client: string, week: string, w: string)
    ensures var (st1, out) := MergeStep(st, prep, client, week, w);
            (prep.list == [] || MergedPages(st.fs, prep.list).None? ==> out == "" && st1.fs == st.fs)
            && (prep.list != [] && MergedPages(st.fs, prep.list).Some? ==>
                  out == Join(w, OutputName(prep.invoice, client, week))
                  && WritesOnly(st.fs, st1.fs, out)
                  && ReadPdf(st1.fs, out) == MergedPages(st.fs, prep.list))
            && st1.rows == st.rows && st1.done == st.done + 1
  {
  }

  /** A week path that is not a folder: nothing is prepared or merged, the
      disk is untouched, and the client's row receives "". */
  lemma PrepareFailureRecordsBlank(st: State, week: string, item: ScanItem)
    requires item.week.Some? && item.week.value != [] && !IsDir(st.fs, item.week.value)
    ensures var r := Client(st, week, item);
            r.fs == st.fs && r.rows == Updated(st.rows, StripEquals, item.client, "")
  {
  }

  /** Column B and the number of rows are never changed by a run. */
  lemma {:induction false} RunKeepsNames(st: State, week: string, items: seq<ScanItem>)
    ensures var r := Run(st, week, items);
            |r.rows| == |st.rows| && forall j :: 0 <= j < |st.rows| ==> r.rows[j].name == st.rows[j].name
  {
    if items != [] {
      RunKeepsNames(st, week, items[..|items| - 1]);
      var mid := Run(st, week, items[..|items| - 1]);
      var item := items[|items| - 1];
      if item.week.Some? && item.week.value != [] {
        var w := item.week.value;
        var prep := PrepareOrEmpty(mid.fs, w);
        var st1 := PrepStage(mid, w, item.files);
        var (st2, out) := MergeStep(st1, prep, item.client, week, w);
        assert st2.rows == mid.rows;
        UpdatedChangesOneCell(st2.rows, StripEquals, item.client, out);
      }
    }
  }
}
