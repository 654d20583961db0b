/** _merge_thread of 111.py. Unlike 114.py, the prepared list already starts
    with the converted invoice, one step is counted per raw file, and the
    variable out_path is assigned only by a successful merge: it is not
    reset between clients, so it is carried from one iteration to the next
    (None while it is still unbound). */
module Rev111 {
  import opened Text
  import opened Disk
  import opened Folders
  import opened Prepare
  import opened Merge
  import opened Ledger
  import opened Progress

  /** The run state together with out_path. */
  datatype Carry = Carry(st: State, outPath: Option<string>)

  function WeekPath(fs: FileSystem, root: string, week: string, item: ScanItem): Option<string>
  {
    if item.week.Some? && item.week.value != [] then item.week else WeekFolder(fs, root, week)
  }

  /** The raw files counted after preparation: the scan's list, or a fresh
      listing of the prepared folder when the scan listed none. */
  function FilesRaw(fs: FileSystem, w: string, item: ScanItem): seq<string>
  {
    if item.files != [] then item.files else RawFiles(fs, w)
  }

  /** The merge block as written: a failing merge is an error and leaves
      out_path as it was. */
  function MergeStep(c: Carry, prep: Prepared, client: string, week: string, w: string): Carry
  {
    if prep.list == [] then Carry(Tick(AddWarning(c.st)), c.outPath)
    else
      var name := OutputName(prep.invoice, client, week);
      match MergeInto(c.st.fs, prep.list, w, name)
      case None => Carry(Tick(AddError(c.st)), c.outPath)
      case Some(fs') =>
        Carry(Tick(c.st.(fs := fs', tally := c.st.tally.(merged := c.st.tally.merged + 1))), Some(Join(w, name)))
  }

  /** The ledger block: the first row whose (non-empty) name, stripped, is the
      client receives out_path, or "" when nothing was prepared. Reading an
      unbound out_path raises, which the block counts as an error without
      writing; no matching row is a warning. */
  function LedgerStep(c: Carry, client: string, listed: bool): Carry
  {
    var st := c.st;
    if FirstMatch(st.rows, TruthyStripEquals, client).None? then Carry(Tick(AddWarning(st)), c.outPath)
    else if listed && c.outPath.None? then Carry(Tick(AddError(st)), c.outPath)
    else
      var value := if listed then c.outPath.value else "";
      Carry(Tick(st.(rows := Updated(st.rows, TruthyStripEquals, client, value))), c.outPath)
  }

  /** Steps counted for the raw files. */
  function TickFiles(st: State, files: seq<string>): State
  {
    st.(done := st.done + |files|)
  }

  function Found(c: Carry, item: ScanItem, week: string, w: string): Carry
    requires IsDir(c.st.fs, w)
  {
    var prep := PrepareSpec(P111, c.st.fs, w);
    var st1 := TickFiles(c.st.(fs := prep.fs), FilesRaw(prep.fs, w, item));
    var m := MergeStep(Carry(st1, c.outPath), prep, item.client, week, w);
    var l := LedgerStep(m, item.client, prep.list != []);
    l.(st := l.st.(tally := l.st.tally.(processed := l.st.tally.processed + 1)))
  }

  /** One iteration of the client loop, as written. */
  function Client(c: Carry, mainFolder: string, week: string, item: ScanItem): Carry
  {
    var st := c.st;
    var root := Join(mainFolder, item.client);
    if !IsDir(st.fs, root) then c.(st := Tick(AddError(st)))
    else
      var wk := WeekPath(st.fs, root, week, item);
      if wk.None? then c.(st := Tick(AddWarning(st)))
      else if !IsDir(st.fs, wk.value) then c.(st := Tick(AddError(Tick(st))))
      else Found(c.(st := Tick(st)), item, week, wk.value)
  }

  function Run(c: Carry, mainFolder: string, week: string, items: seq<ScanItem>): Carry
  {
    if items == [] then c
    else Client(Run(c, mainFolder, week, items[..|items| - 1]), mainFolder, week, items[|items| - 1])
  }

  method ProcessClient(s: Session, outPath: Option<string>, mainFolder: string, week: string, item: ScanItem)
    returns (outPath': Option<string>)
    modifies s, s.sheet
    ensures Carry(s.Snapshot(), outPath') == Client(Carry(old(s.Snapshot()), outPath), mainFolder, week, item)
  {
    outPath' := outPath;
    var root := Join(mainFolder, item.client);
    if !IsDir(s.fs, root) {
      s.Fail();
      s.Increment();
      return;
    }
    var wk := item.week;
    if !(wk.Some? && wk.value != []) {
      wk := FindWeekFolder(s.fs, root, week);
    }
    if wk.None? {
      s.Warn();
      s.Increment();
      return;
    }
    s.Increment();
    if !IsDir(s.fs, wk.value) {
      s.Fail();
      s.Increment();
      return;
    }
    outPath' := ProcessFound(s, outPath, item, week, wk.value);
  }

  method ProcessFound(s: Session, outPath: Option<string>, item: ScanItem, week: string, w: string)
    returns (outPath': Option<string>)
    requires IsDir(s.fs, w)
    modifies s, s.sheet
    ensures Carry(s.Snapshot(), outPath') == Found(Carry(old(s.Snapshot()), outPath), item, week, w)
  {
    ghost var st0 := s.Snapshot();
    var prep := PrepareFilesForMerge(P111, s.fs, w);
    s.fs := prep.fs;
    var filesRaw := item.files;
    if filesRaw == [] {
      filesRaw := ListRawFiles(s.fs, w);
    }
    CountFiles(s, filesRaw);
    ghost var st1 := s.Snapshot();
    assert st1 == TickFiles(st0.(fs := prep.fs), FilesRaw(prep.fs, w, item));
    var out := MergeBlock(s, outPath, prep, item.client, week, w);
    ghost var m := Carry(s.Snapshot(), out);
    assert m == MergeStep(Carry(st1, outPath), prep, item.client, week, w);
    outPath' := LedgerBlock(s, out, item.client, prep.list != []);
    s.tally := s.tally.(processed := s.tally.processed + 1);
  }

  /** One step per raw file. */
  method CountFiles(s: Session, files: seq<string>)
    modifies s
    ensures s.Snapshot() == TickFiles(old(s.Snapshot()), files)
  {
    var k := 0;
    while k < |files|
      invariant 0 <= k <= |files|
      invariant s.Snapshot() == old(s.Snapshot()).(done := old(s.tasksDone) + k)
    {
      s.Increment();
      k := k + 1;
    }
  }

  method MergeBlock(s: Session, outPath: Option<string>, prep: Prepared, client: string, week: string, w: string)
    returns (outPath': Option<string>)
    modifies s
    ensures Carry(s.Snapshot(), outPath') == MergeStep(Carry(old(s.Snapshot()), outPath), prep, client, week, w)
  {
    outPath' := outPath;
    if prep.list != [] {
      var name := OutputName(prep.invoice, client, week);
      var written := MergeAndWrite(s.fs, prep.list, w, name);
      if written.Some? {
        s.fs := written.value;
        outPath' := Some(Join(w, name));
        s.tally := s.tally.(merged := s.tally.merged + 1);
      } else {
        s.Fail();
      }
    } else {
      s.Warn();
    }
    s.Increment();
  }

  method LedgerBlock(s: Session, outPath: Option<string>, client: string, listed: bool)
    returns (outPath': Option<string>)
    modifies s, s.sheet
    ensures Carry(s.Snapshot(), outPath') == LedgerStep(Carry(old(s.Snapshot()), outPath), client, listed)
  {
    outPath' := outPath;
    var r := FirstClientRow;
    while r < s.sheet.Length
      invariant FirstClientRow <= r <= s.sheet.Length || (s.sheet.Length < FirstClientRow && r == FirstClientRow)
      invariant s.Snapshot() == old(s.Snapshot())
      invariant FirstMatchFrom(old(s.sheet[..]), TruthyStripEquals, client, r) == FirstMatch(old(s.sheet[..]), TruthyStripEquals, client)
      decreases s.sheet.Length - r
    {
      if Matches(TruthyStripEquals, s.sheet[r].name, client) {
        if listed && outPath.None? {
          s.Fail();
        } else {
          var value := if listed then outPath.value else "";
          s.sheet[r] := s.sheet[r].(path := Text(value));
        }
        s.Increment();
        return;
      }
      r := r + 1;
    }
    s.Warn();
    s.Increment();
  }

  method MergeThread(s: Session, bookOpen: bool, mainFolder: string, week: string, items: seq<ScanItem>)
    returns (success: bool)
    modifies s, s.sheet
    ensures success == bookOpen
    ensures s.Snapshot() == if bookOpen then Run(Carry(old(s.Snapshot()), None), mainFolder, week, items).st
                            else old(s.Snapshot())
  {
    if !bookOpen {
      return false;
    }
    ghost var st0 := s.Snapshot();
    var outPath: Option<string> := None;
    var i := 0;
    while i < |items|
      invariant 0 <= i <= |items|
      invariant Carry(s.Snapshot(), outPath) == Run(Carry(st0, None), mainFolder, week, items[..i])
    {
      outPath := ProcessClient(s, outPath, mainFolder, week, items[i]);
      assert Carry(s.Snapshot(), outPath) == Run(Carry(st0, None), mainFolder, week, items[..i + 1]) by {
        assert items[..i + 1][..i] == items[..i];
      }
      i := i + 1;
    }
    assert items[..i] == items;
    success := true;
  }

  // ---------------------------------------------------------------------
  // Properties
  // ---------------------------------------------------------------------

  /** Processed against the disk it was scanned on, a client takes the steps
      the scan estimated: one without a week folder, and check + one per raw
      file + merge + ledger when the scan listed files. */
  lemma ClientMatchesEstimate(c: Carry, mainFolder: string, week: string, item: ScanItem)
    requires item == ScanClient(c.st.fs, mainFolder, item.client, week, StepPerFile)
    requires item.week.Some? ==> item.files != []
    ensures Client(c, mainFolder, week, item).st.done == c.st.done + item.tasks
  {
    var root := Join(mainFolder, item.client);
    if item.week.Some? {
      WeekFolderIsFirstMonth(c.st.fs, root, week);
      assert WeekPath(c.st.fs, root, week, item) == item.week;
    }
  }

  lemma ClientCounters(c: Carry, mainFolder: string, week: string, item: ScanItem)
    ensures var t, t' := c.st.tally, Client(c, mainFolder, week, item).st.tally;
            t.processed <= t'.processed <= t.processed + 1
            && t.merged <= t'.merged
            && t'.merged - t.merged <= t'.processed - t.processed
            && (t'.processed == t.processed ==> t'.warnings + t'.errors > t.warnings + t.errors)
            && t.warnings <= t'.warnings && t.errors <= t'.errors
    ensures c.st.done < Client(c, mainFolder, week, item).st.done
  {
    var root := Join(mainFolder, item.client);
    if IsDir(c.st.fs, root) {
      var wk := WeekPath(c.st.fs, root, week, item);
      if wk.Some? && IsDir(c.st.fs, wk.value) {
        FoundCounters(c.(st := Tick(c.st)), item, week, wk.value);
      }
    }
  }

  /** A client whose week folder exists is processed once, merged at most
      once, and never lowers a counter. */
  lemma FoundCounters(c: Carry, item: ScanItem, week: string, w: string)
    requires IsDir(c.st.fs, w)
    ensures var t, t' := c.st.tally, Found(c, item, week, w).st.tally;
            t'.processed == t.processed + 1
            && t.merged <= t'.merged <= t.merged + 1
            && t.warnings <= t'.warnings && t.errors <= t'.errors
    ensures c.st.done < Found(c, item, week, w).st.done
  {
    var prep := PrepareSpec(P111, c.st.fs, w);
    var st1 := TickFiles(c.st.(fs := prep.fs), FilesRaw(prep.fs, w, item));
    var m := MergeStep(Carry(st1, c.outPath), prep, item.client, week, w);
    assert st1.tally == c.st.tally && st1.done >= c.st.done;
    assert m.st.tally.processed == c.st.tally.processed && m.st.done == st1.done + 1;
    assert c.st.tally.merged <= m.st.tally.merged <= c.st.tally.merged + 1;
    var l := LedgerStep(m, item.client, prep.list != []);
    assert l.st.tally.processed == c.st.tally.processed && l.st.tally.merged == m.st.tally.merged;
  }

  /** Over a whole run from zeroed counters: merged <= processed <= clients,
      and every client not processed leaves a warning or an error. */
  lemma {:induction false} RunCounters(c: Carry, mainFolder: string, week: string, items: seq<ScanItem>)
    requires c.st.tally == NoTally && c.st.done == 0
    ensures var r := Run(c, mainFolder, week, items).st;
            r.tally.merged <= r.tally.processed <= |items|
            && |items| <= r.tally.processed + r.tally.warnings + r.tally.errors
            && |items| <= r.done
  {
    if items != [] {
      var front := items[..|items| - 1];
      RunCounters(c, mainFolder, week, front);
      ClientCounters(Run(c, mainFolder, week, front), mainFolder, week, items[|items| - 1]);
    }
  }

  // ---------------------------------------------------------------------
  // The stale out_path
  // ---------------------------------------------------------------------

  /** As written: when a client's merge fails after an earlier client's merge
      succeeded, the earlier client's output path is written into this
      client's ledger row. */
  lemma StaleOutPathRecorded(c: Carry, prep: Prepared, client: string, week: string, w: string)
    requires c.outPath.Some?
    requires prep.list != [] && MergedPages(c.st.fs, prep.list).None?
    requires FirstMatch(c.st.rows, TruthyStripEquals, client).Some?
    ensures var m := FirstMatch(c.st.rows, TruthyStripEquals, client).value;
            var r := LedgerStep(MergeStep(c, prep, client, week, w), client, true);
            m < |r.st.rows| && r.st.rows[m].path == Text(c.outPath.value)
  {
    var mid := MergeStep(c, prep, client, week, w);
    assert mid.st.rows == c.st.rows && mid.outPath == c.outPath;
    UpdatedChangesOneCell(c.st.rows, TruthyStripEquals, client, c.outPath.value);
  }

  /** A concrete instance: client "B" has one prepared PDF that is not on the
      disk, so its merge raises; the row of "B" then receives the path of
      client A's merged file. */
  lemma StaleOutPathExample()
    ensures var rows := [Row(Empty, Empty), Row(Empty, Empty), Row(Empty, Empty), Row(Text("B"), Empty)];
            var c := Carry(State(FileSystem(map[], map[]), rows, NoTally, 0), Some("A\\Week 05-07\\A_invoice_ready_.pdf"));
            var prep := Prepared(["B\\Week 05-07\\t_rotated.pdf"], None, FileSystem(map[], map[]));
            var r := LedgerStep(MergeStep(c, prep, "B", "05-07", "B\\Week 05-07"), "B", true);
            r.st.rows[3].path == Text("A\\Week 05-07\\A_invoice_ready_.pdf")
  {
    var rows := [Row(Empty, Empty), Row(Empty, Empty), Row(Empty, Empty), Row(Text("B"), Empty)];
    var fs := FileSystem(map[], map[]);
    var list := ["B\\Week 05-07\\t_rotated.pdf"];
    assert MergedPages(fs, list[..0]) == Some([]);
    assert MergedPages(fs, list).None?;
    assert Strip("B") == "B" by {
      StripUnchanged("B");
    }
    assert Matches(TruthyStripEquals, rows[3].name, "B");
    assert FirstMatch(rows, TruthyStripEquals, "B") == Some(3) by {
      assert FirstMatchFrom(rows, TruthyStripEquals, "B", 3) == Some(3);
    }
    var c := Carry(State(fs, rows, NoTally, 0), Some("A\\Week 05-07\\A_invoice_ready_.pdf"));
    StaleOutPathRecorded(c, Prepared(list, None, fs), "B", "05-07", "B\\Week 05-07");
  }

  /** The merge block as evidently intended (114.py does this): out_path is
      reset before the merge, so a failing merge leaves it empty. */
  function MergeStepFixed(st: State, prep: Prepared, client: string, week: string, w: string): (State, string)
  {
    var m := MergeStep(Carry(st, Some("")), prep, client, week, w);
    (m.st, m.outPath.value)
  }

  /** The ledger block once out_path is always bound. */
  function LedgerStepFixed(st: State, client: string, value: string): State
  {
    LedgerStep(Carry(st, Some(value)), client, true).st
  }

  /** Corrected: the path recorded for a client is "" or the file its own
      merge just wrote, which holds the merged pages of its prepared list. */
  lemma FixedRecordsOwnOutput(st: State, prep: Prepared, client: string, week: string, w: string)
    ensures var (st1, out) := MergeStepFixed(st, prep, client, week, w);
            (out == "" || (out == Join(w, OutputName(prep.invoice, client, week))
                           && ReadPdf(st1.fs, out) == MergedPages(st.fs, prep.list)))
            && (prep.list != [] && MergedPages(st.fs, prep.list).None? ==> out == "")
    ensures var (st1, out) := MergeStepFixed(st, prep, client, week, w);
            var r := LedgerStepFixed(st1, client, out);
            FirstMatch(st1.rows, TruthyStripEquals, client).Some? ==>
              var m := FirstMatch(st1.rows, TruthyStripEquals, client).value;
              m < |r.rows| && r.rows[m].path == Text(out)
  {
    var (st1, out) := MergeStepFixed(st, prep, client, week, w);
    UpdatedChangesOneCell(st1.rows, TruthyStripEquals, client, out);
  }
}
