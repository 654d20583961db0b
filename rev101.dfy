/** _run_merge of 101.py, 102.py and 110.py: the selected clients are
    processed directly (no pre-scan). A client whose root or week folder is
    missing, whose collected list is empty, or whose merge raises is logged
    and left; otherwise the merged PDF is written next to its sources and its
    path goes to column G of the first ledger row naming the client. The
    three revisions change the disk and the sheet alike and differ only in
    how they count progress: 101.py and 102.py count one step per client out
    of len(clients); 110.py counts up to three steps per client (week folder
    found, something collected, merged) out of 3 * len(clients), and sets
    the bar to 100 when the loop ends. */
module Rev101 {
  import opened Text
  import opened Disk
  import opened Folders
  import opened Prepare
  import opened Merge
  import opened Ledger
  import opened Progress

  /** How a revision counts progress. */
  datatype Counting =
    | PerClient   // 101.py, 102.py
    | PerStage    // 110.py

  /** What one client leaves behind: the disk, the sheet, and how many of
      the three stages (week folder found, list collected, merge written) it
      got through. */
  datatype Attempted = Attempted(fs: FileSystem, rows: seq<Row>, reached: nat)

  /** The body of the try block for one client. */
  function Attempt(fs: FileSystem, rows: seq<Row>, mainFolder: string, week: string, client: string): Attempted
  {
    var root := Join(mainFolder, client);
    if !IsDir(fs, root) then Attempted(fs, rows, 0)
    else match WeekFolder(fs, root, week)
      case None => Attempted(fs, rows, 0)
      case Some(w) =>
        WeekFolderIsDir(fs, root, week);
        var prep := PrepareSpec(PCollect, fs, w);
        if prep.list == [] then Attempted(prep.fs, rows, 1)
        else
          var name := OutputName(prep.invoice, client, week);
          match MergeInto(prep.fs, prep.list, w, name)
          case None => Attempted(prep.fs, rows, 2)
          case Some(fs') => Attempted(fs', Updated(rows, StripEquals, client, Join(w, name)), 3)
  }

  /** The steps a client adds to the progress counter. */
  function Steps(k: Counting, reached: nat): nat
  {
    if k == PerClient then 1 else reached
  }

  function Client(k: Counting, st: State, mainFolder: string, week: string, client: string): State
  {
    var a := Attempt(st.fs, st.rows, mainFolder, week, client);
    st.(fs := a.fs, rows := a.rows, done := st.done + Steps(k, a.reached))
  }

  function Run(k: Counting, st: State, mainFolder: string, week: string, clients: seq<string>): State
  {
    if clients == [] then st
    else Client(k, Run(k, st, mainFolder, week, clients[..|clients| - 1]), mainFolder, week, clients[|clients| - 1])
  }

  method AttemptClient(fs: FileSystem, sheet: array<Row>, mainFolder: string, week: string, client: string)
    returns (fs': FileSystem, reached: nat)
    modifies sheet
    ensures Attempted(fs', sheet[..], reached) == Attempt(fs, old(sheet[..]), mainFolder, week, client)
  {
    fs', reached := fs, 0;
    var root := Join(mainFolder, client);
    if !IsDir(fs, root) {
      return;
    }
    var w := FindWeekFolder(fs, root, week);
    if w.None? {
      return;
    }
    WeekFolderIsDir(fs, root, week);
    var prep := PrepareFilesForMerge(PCollect, fs, w.value);
    fs', reached := prep.fs, 1;
    if prep.list == [] {
      return;
    }
    reached := 2;
    var name := OutputName(prep.invoice, client, week);
    var written := MergeAndWrite(prep.fs, prep.list, w.value, name);
    if written.None? {
      return;
    }
    fs', reached := written.value, 3;
    var found := UpdateLedger(sheet, StripEquals, client, Join(w.value, name));
  }

  /** 101.py and 102.py: the loop over the clients; `shown` holds the
      percentage the bar is set to after each client. */
  method RunPerClient(fs: FileSystem, sheet: array<Row>, bookOpen: bool, mainFolder: string, week: string,
                      clients: seq<string>)
    returns (success: bool, fs': FileSystem, shown: seq<nat>)
    modifies sheet
    ensures success == bookOpen
    ensures !bookOpen ==> fs' == fs && sheet[..] == old(sheet[..]) && shown == []
    ensures bookOpen ==>
              var r := Run(PerClient, State(fs, old(sheet[..]), NoTally, 0), mainFolder, week, clients);
              fs' == r.fs && sheet[..] == r.rows && |shown| == |clients|
    ensures forall i :: 0 <= i < |shown| ==> shown[i] <= 100
    ensures forall i, j :: 0 <= i <= j < |shown| ==> shown[i] <= shown[j]
    ensures bookOpen && clients != [] ==> shown[|shown| - 1] == 100
  {
    fs', shown := fs, [];
    if !bookOpen {
      return false, fs', shown;
    }
    ghost var st0 := State(fs, sheet[..], NoTally, 0);
    var total := |clients|;
    var done := 0;
    while done < total
      invariant 0 <= done <= total && |shown| == done
      invariant State(fs', sheet[..], NoTally, done) == Run(PerClient, st0, mainFolder, week, clients[..done])
      invariant shown == Percents(done, total)
    {
      RunUnfolds(PerClient, st0, mainFolder, week, clients, done);
      var reached;
      fs', reached := AttemptClient(fs', sheet, mainFolder, week, clients[done]);
      shown := shown + [Percent(done + 1, total, false)];
      done := done + 1;
    }
    assert clients[..done] == clients;
    ShownWithinEstimate(done, total);
    success := true;
  }

  /** 110.py: the loop over the clients; `shown` holds the percentage the bar
      is set to after each counted step, and the 100 set after the loop. */
  method RunPerStage(fs: FileSystem, sheet: array<Row>, bookOpen: bool, mainFolder: string, week: string,
                     clients: seq<string>)
    returns (success: bool, fs': FileSystem, shown: seq<nat>)
    modifies sheet
    ensures success == bookOpen
    ensures !bookOpen ==> fs' == fs && sheet[..] == old(sheet[..]) && shown == []
    ensures bookOpen ==>
              var r := Run(PerStage, State(fs, old(sheet[..]), NoTally, 0), mainFolder, week, clients);
              fs' == r.fs && sheet[..] == r.rows && |shown| == r.done + 1 && shown[r.done] == 100
    ensures forall i :: 0 <= i < |shown| ==> shown[i] <= 100
    ensures forall i, j :: 0 <= i <= j < |shown| ==> shown[i] <= shown[j]
  {
    fs', shown := fs, [];
    if !bookOpen {
      return false, fs', shown;
    }
    var total := |clients| * 3;
    fs', shown := StageLoop(fs, sheet, mainFolder, week, clients, total);
    ShownWithinEstimate(|shown|, total);
    shown := shown + [100];
    success := true;
  }

  /** The loop of 110.py over the clients, one bar update per stage reached. */
  method StageLoop(fs: FileSystem, sheet: array<Row>, mainFolder: string, week: string, clients: seq<string>, total: nat)
    returns (fs': FileSystem, shown: seq<nat>)
    requires total == 3 * |clients|
    modifies sheet
    ensures State(fs', sheet[..], NoTally, |shown|) == Run(PerStage, State(fs, old(sheet[..]), NoTally, 0), mainFolder, week, clients)
    ensures |shown| <= total && shown == Percents(|shown|, total)
  {
    ghost var st0 := State(fs, sheet[..], NoTally, 0);
    fs', shown := fs, [];
    var i := 0;
    while i < |clients|
      invariant 0 <= i <= |clients| && |shown| <= 3 * i
      invariant State(fs', sheet[..], NoTally, |shown|) == Run(PerStage, st0, mainFolder, week, clients[..i])
      invariant shown == Percents(|shown|, total)
    {
      RunUnfolds(PerStage, st0, mainFolder, week, clients, i);
      AttemptReachesThree(fs', sheet[..], mainFolder, week, clients[i]);
      var reached;
      fs', reached := AttemptClient(fs', sheet, mainFolder, week, clients[i]);
      shown := CountSteps(shown, reached, total);
      i := i + 1;
    }
    assert clients[..i] == clients;
  }

  /** The bar updates of one client in 110.py: one per stage reached. */
  method CountSteps(shown: seq<nat>, reached: nat, total: nat) returns (shown': seq<nat>)
    requires shown == Percents(|shown|, total)
    ensures shown' == Percents(|shown| + reached, total)
  {
    shown' := shown;
    var t := 0;
    while t < reached
      invariant 0 <= t <= reached && shown' == Percents(|shown| + t, total)
    {
      shown' := shown' + [Percent(|shown'| + 1, total, false)];
      t := t + 1;
    }
  }

  lemma RunUnfolds(k: Counting, st: State, mainFolder: string, week: string, clients: seq<string>, i: nat)
    requires i < |clients|
    ensures Run(k, st, mainFolder, week, clients[..i + 1])
            == Client(k, Run(k, st, mainFolder, week, clients[..i]), mainFolder, week, clients[i])
  {
    assert clients[..i + 1][..i] == clients[..i];
  }

  /** The values the bar is set to after each of the first n steps. */
  function Percents(n: nat, total: nat): (r: seq<nat>)
    ensures |r| == n
  {
    if n == 0 then [] else Percents(n - 1, total) + [Percent(n, total, false)]
  }

  lemma {:induction false} PercentsAt(n: nat, total: nat, i: nat)
    requires i < n
    ensures Percents(n, total)[i] == Percent(i + 1, total, false)
  {
    if i < n - 1 {
      PercentsAt(n - 1, total, i);
    }
  }

  /** The values the bar is set to while no more steps are done than
      estimated never pass 100 and never go back; the last is 100 when every
      estimated step is done. */
  lemma ShownWithinEstimate(n: nat, total: nat)
    requires n <= total
    ensures forall i :: 0 <= i < n ==> Percents(n, total)[i] <= 100
    ensures forall i, j :: 0 <= i <= j < n ==> Percents(n, total)[i] <= Percents(n, total)[j]
    ensures 0 < n == total ==> Percents(n, total)[n - 1] == 100
  {
    var shown := Percents(n, total);
    forall i | 0 <= i < n ensures shown[i] <= 100 {
      PercentsAt(n, total, i);
      PercentWithinEstimate(i + 1, total, false);
    }
    forall i, j | 0 <= i <= j < n ensures shown[i] <= shown[j] {
      PercentsAt(n, total, i);
      PercentsAt(n, total, j);
      PercentMonotone(i + 1, j + 1, total, false);
    }
    if 0 < n == total {
      PercentsAt(n, total, n - 1);
      PercentWithinEstimate(total, total, false);
    }
  }

  // ---------------------------------------------------------------------
  // Properties
  // ---------------------------------------------------------------------

  lemma AttemptReachesThree(fs: FileSystem, rows: seq<Row>, mainFolder: string, week: string, client: string)
    ensures Attempt(fs, rows, mainFolder, week, client).reached <= 3
  {
  }

  /** How far a client gets, and what it leaves: nothing changes without a
      week folder; the collection alone changes the disk when its list is
      empty or the merge raises, and the sheet is then untouched; a written
      merge holds the pages of the collected list (the invoice's first) and
      its path goes to the first row naming the client. */
  lemma AttemptOutcome(fs: FileSystem, rows: seq<Row>, mainFolder: string, week: string, client: string)
    ensures var a := Attempt(fs, rows, mainFolder, week, client);
            var found := WeekFolder(fs, Join(mainFolder, client), week);
            a.reached <= 3
            && (a.reached == 0 <==> found.None?)
            && (a.reached == 0 ==> a.fs == fs && a.rows == rows)
            && (a.reached < 3 ==> a.rows == rows)
    ensures var a := Attempt(fs, rows, mainFolder, week, client);
            var found := WeekFolder(fs, Join(mainFolder, client), week);
            found.Some? ==>
              IsDir(fs, found.value)
              && var prep := PrepareSpec(PCollect, fs, found.value);
                 var out := Join(found.value, OutputName(prep.invoice, client, week));
                 (a.reached == 1 <==> prep.list == [])
                 && (a.reached == 2 <==> prep.list != [] && MergedPages(prep.fs, prep.list).None?)
                 && (a.reached < 3 ==> a.fs == prep.fs)
                 && (a.reached == 3 ==>
                       WritesOnly(prep.fs, a.fs, out)
                       && ReadPdf(a.fs, out) == MergedPages(prep.fs, prep.list)
                       && a.rows == Updated(rows, StripEquals, client, out))
  {
    var root := Join(mainFolder, client);
    var found := WeekFolder(fs, root, week);
    if found.Some? {
      WeekFolderIsDir(fs, root, week);
    } else {
      WeekFolderIsFirstMonth(fs, root, week);
    }
  }

  /** The collected list leads with the invoice, so the merged file begins
      with the invoice's pages, followed by those of the converted
      timesheets. */
  lemma MergedInvoiceFirst(fs: FileSystem, w: string)
    requires IsDir(fs, w)
    requires var prep := PrepareSpec(PCollect, fs, w);
             prep.invoice.Some? && MergedPages(prep.fs, prep.list).Some?
    ensures var prep := PrepareSpec(PCollect, fs, w);
            |prep.list| >= 1 && prep.list[0] == prep.invoice.value
            && ReadPdf(prep.fs, prep.invoice.value).Some? && MergedPages(prep.fs, prep.list[1..]).Some?
            && MergedPages(prep.fs, prep.list).value
               == ReadPdf(prep.fs, prep.invoice.value).value + MergedPages(prep.fs, prep.list[1..]).value
  {
    var prep := PrepareSpec(PCollect, fs, w);
    ListShape(PCollect, fs, w);
    assert prep.list == [prep.invoice.value] + prep.list[1..];
    InvoicePagesFirst(prep.fs, prep.invoice.value, prep.list[1..]);
  }

  /** 101.py and 102.py count exactly one step per client; 110.py at most
      three, so neither bar passes 100 before the end. */
  lemma {:induction false} RunSteps(k: Counting, st: State, mainFolder: string, week: string, clients: seq<string>)
    ensures k == PerClient ==> Run(k, st, mainFolder, week, clients).done == st.done + |clients|
    ensures Run(k, st, mainFolder, week, clients).done <= st.done + 3 * |clients|
  {
    if clients != [] {
      var front := clients[..|clients| - 1];
      RunSteps(k, st, mainFolder, week, front);
      var mid := Run(k, st, mainFolder, week, front);
      AttemptReachesThree(mid.fs, mid.rows, mainFolder, week, clients[|clients| - 1]);
    }
  }

  /** Both countings leave the same disk and the same sheet. */
  lemma {:induction false} CountingIsInvisible(st: State, mainFolder: string, week: string, clients: seq<string>)
    ensures Run(PerClient, st, mainFolder, week, clients).fs == Run(PerStage, st, mainFolder, week, clients).fs
    ensures Run(PerClient, st, mainFolder, week, clients).rows == Run(PerStage, st, mainFolder, week, clients).rows
  {
    if clients != [] {
      CountingIsInvisible(st, mainFolder, week, clients[..|clients| - 1]);
    }
  }

  /** Column B and the number of rows are never changed by a run. */
  lemma {:induction false} RunKeepsNames(k: Counting, st: State, mainFolder: string, week: string, clients: seq<string>)
    ensures var r := Run(k, st, mainFolder, week, clients);
            |r.rows| == |st.rows| && forall j :: 0 <= j < |st.rows| ==> r.rows[j].name == st.rows[j].name
  {
    if clients != [] {
      RunKeepsNames(k, st, mainFolder, week, clients[..|clients| - 1]);
      var mid := Run(k, st, mainFolder, week, clients[..|clients| - 1]);
      var client := clients[|clients| - 1];
      var a := Attempt(mid.fs, mid.rows, mainFolder, week, client);
      AttemptOutcome(mid.fs, mid.rows, mainFolder, week, client);
      var found := WeekFolder(mid.fs, Join(mainFolder, client), week);
      if a.reached == 3 {
        var prep := PrepareSpec(PCollect, mid.fs, found.value);
        UpdatedChangesOneCell(mid.rows, StripEquals, client, Join(found.value, OutputName(prep.invoice, client, week)));
      }
    }
  }
}
