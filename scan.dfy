/** find_week_folder, list_raw_files and the pre-scan that estimates how many
    progress steps a run will take. The week folder of a client is
    <client root>\<month>\Week <MM-DD>; month folders are tried in ascending
    name order. */
module Folders {
  import opened Text
  import opened Disk

  /** Which converter a lower-cased extension selects. */
  datatype Kind = PdfKind | ImageKind | WordKind | OtherKind

  function KindOf(ext: string): Kind
  {
    if ext == ".pdf" then PdfKind
    else if ext == ".jpg" || ext == ".jpeg" || ext == ".png" then ImageKind
    else if ext == ".docx" || ext == ".doc" then WordKind
    else OtherKind
  }

  /** The extensions every revision accepts as merge material. */
  const RecognisedExts: set<string> := {".pdf", ".jpg", ".jpeg", ".png", ".docx", ".doc"}

  predicate IsRecognised(name: string)
  {
    Ext(name) in RecognisedExts
  }

  /** The recognised extensions are exactly the ones a converter exists for. */
  lemma RecognisedHasConverter(name: string)
    ensures IsRecognised(name) <==> KindOf(Ext(name)) != OtherKind
  {
    ExtsWithConverter(Ext(name));
  }

  lemma ExtsWithConverter(ext: string)
    ensures ext in RecognisedExts <==> KindOf(ext) != OtherKind
  {
  }

  // ---------------------------------------------------------------------
  // find_week_folder
  // ---------------------------------------------------------------------

  function WeekDirName(week: string): string
  {
    "Week " + week
  }

  /** `month` is a folder of the client root and holds the week folder. */
  predicate HoldsWeek(fs: FileSystem, root: string, month: string, target: string)
  {
    IsDir(fs, Join(root, month)) && IsDir(fs, Join(Join(root, month), target))
  }

  /** The week folder under the first month of `months` that holds it. */
  function FirstWeekIn(fs: FileSystem, root: string, months: seq<string>, target: string): Option<string>
  {
    if months == [] then None
    else if HoldsWeek(fs, root, months[0], target) then Some(Join(Join(root, months[0]), target))
    else FirstWeekIn(fs, root, months[1..], target)
  }

  function WeekFolder(fs: FileSystem, root: string, week: string): Option<string>
  {
    if !IsDir(fs, root) then None
    else FirstWeekIn(fs, root, SortNames(ListDir(fs, root)), WeekDirName(week))
  }

  method FindWeekFolder(fs: FileSystem, root: string, week: string) returns (r: Option<string>)
    ensures r == WeekFolder(fs, root, week)
  {
    if !IsDir(fs, root) {
      return None;
    }
    var target := WeekDirName(week);
    var months := SortNames(ListDir(fs, root));
    var i := 0;
    while i < |months|
      invariant 0 <= i <= |months|
      invariant FirstWeekIn(fs, root, months[i..], target) == WeekFolder(fs, root, week)
    {
      assert months[i..][1..] == months[i + 1..];
      var monthPath := Join(root, months[i]);
      if IsDir(fs, monthPath) {
        var weekPath := Join(monthPath, target);
        if IsDir(fs, weekPath) {
          return Some(weekPath);
        }
      }
      i := i + 1;
    }
    return None;
  }

  lemma {:induction false} FirstWeekInSpec(fs: FileSystem, root: string, months: seq<string>, target: string)
    ensures FirstWeekIn(fs, root, months, target).None?
            <==> forall k :: 0 <= k < |months| ==> !HoldsWeek(fs, root, months[k], target)
    ensures FirstWeekIn(fs, root, months, target).Some? ==>
              exists k :: 0 <= k < |months| && HoldsWeek(fs, root, months[k], target)
                && FirstWeekIn(fs, root, months, target).value == Join(Join(root, months[k]), target)
                && forall j :: 0 <= j < k ==> !HoldsWeek(fs, root, months[j], target)
  {
    if months != [] && !HoldsWeek(fs, root, months[0], target) {
      FirstWeekInSpec(fs, root, months[1..], target);
      var r := FirstWeekIn(fs, root, months[1..], target);
      if r.Some? {
        var k :| 0 <= k < |months[1..]| && HoldsWeek(fs, root, months[1..][k], target)
                 && r.value == Join(Join(root, months[1..][k]), target)
                 && forall j :: 0 <= j < k ==> !HoldsWeek(fs, root, months[1..][j], target);
        assert HoldsWeek(fs, root, months[k + 1], target);
        forall j | 0 <= j < k + 1 ensures !HoldsWeek(fs, root, months[j], target) {
          if j > 0 { assert months[j] == months[1..][j - 1]; }
        }
      } else {
        forall k | 0 <= k < |months| ensures !HoldsWeek(fs, root, months[k], target) {
          if k > 0 { assert months[k] == months[1..][k - 1]; }
        }
      }
    } else if months != [] {
      assert HoldsWeek(fs, root, months[0], target);
    }
  }

  /** find_week_folder: None when the client root is not a folder or no month
      folder holds the week folder; otherwise the week folder under the month
      whose name comes first in code-point order among those that hold it. */
  lemma WeekFolderIsFirstMonth(fs: FileSystem, root: string, week: string)
    ensures WeekFolder(fs, root, week).None? <==>
              !IsDir(fs, root)
              || forall m :: m in ListDir(fs, root) ==> !HoldsWeek(fs, root, m, WeekDirName(week))
    ensures WeekFolder(fs, root, week).Some? ==>
              IsDir(fs, root)
              && (exists m :: m in ListDir(fs, root) && HoldsWeek(fs, root, m, WeekDirName(week))
                   && WeekFolder(fs, root, week).value == Join(Join(root, m), WeekDirName(week))
                   && forall m' :: m' in ListDir(fs, root) && HoldsWeek(fs, root, m', WeekDirName(week)) ==> Below(m, m'))
  {
    if IsDir(fs, root) {
      var target := WeekDirName(week);
      var listed := ListDir(fs, root);
      var months := SortNames(listed);
      SortNamesSorted(listed);
      SortNamesSameNames(listed);
      FirstWeekInSpec(fs, root, months, target);
      var r := WeekFolder(fs, root, week);
      if r.Some? {
        var k :| 0 <= k < |months| && HoldsWeek(fs, root, months[k], target)
                 && r.value == Join(Join(root, months[k]), target)
                 && forall j :: 0 <= j < k ==> !HoldsWeek(fs, root, months[j], target);
        var m := months[k];
        forall m' | m' in listed && HoldsWeek(fs, root, m', target) ensures Below(m, m') {
          var j :| 0 <= j < |months| && months[j] == m';
          if j == k { BelowReflexive(m); }
        }
      } else {
        forall m | m in listed ensures !HoldsWeek(fs, root, m, target) {
          var j :| 0 <= j < |months| && months[j] == m;
        }
      }
    }
  }

  /** A found week folder is a folder under a client root that is a folder. */
  lemma WeekFolderIsDir(fs: FileSystem, root: string, week: string)
    requires WeekFolder(fs, root, week).Some?
    ensures IsDir(fs, root) && IsDir(fs, WeekFolder(fs, root, week).value)
    ensures WeekFolder(fs, root, week).value != []
  {
    FirstWeekInIsDir(fs, root, SortNames(ListDir(fs, root)), WeekDirName(week));
  }

  lemma {:induction false} FirstWeekInIsDir(fs: FileSystem, root: string, months: seq<string>, target: string)
    ensures FirstWeekIn(fs, root, months, target).Some? ==>
              IsDir(fs, FirstWeekIn(fs, root, months, target).value) && FirstWeekIn(fs, root, months, target).value != []
  {
    if months != [] && !HoldsWeek(fs, root, months[0], target) {
      FirstWeekInIsDir(fs, root, months[1..], target);
    }
  }

  // ---------------------------------------------------------------------
  // list_raw_files
  // ---------------------------------------------------------------------

  /** The paths of the names, in the given order, that are regular files with a
      recognised extension (the append loop of list_raw_files). */
  function RawFilesIn(fs: FileSystem, folder: string, names: seq<string>): seq<string>
  {
    if names == [] then []
    else
      var rest := RawFilesIn(fs, folder, names[..|names| - 1]);
      var n := names[|names| - 1];
      if IsFile(fs, Join(folder, n)) && IsRecognised(n) then rest + [Join(folder, n)] else rest
  }

  function RawFiles(fs: FileSystem, folder: string): seq<string>
  {
    if !IsDir(fs, folder) then [] else RawFilesIn(fs, folder, SortNames(ListDir(fs, folder)))
  }

  method ListRawFiles(fs: FileSystem, folder: string) returns (files: seq<string>)
    ensures files == RawFiles(fs, folder)
  {
    files := [];
    if !IsDir(fs, folder) {
      return;
    }
    var names := SortNames(ListDir(fs, folder));
    var i := 0;
    while i < |names|
      invariant 0 <= i <= |names|
      invariant files == RawFilesIn(fs, folder, names[..i])
    {
      assert names[..i + 1][..i] == names[..i];
      var path := Join(folder, names[i]);
      if IsFile(fs, path) && IsRecognised(names[i]) {
        files := files + [path];
      }
      i := i + 1;
    }
    assert names[..i] == names;
  }

  /** One more listed name adds its path exactly when it is a regular file
      with a recognised extension. */
  lemma RawFilesInStep(fs: FileSystem, folder: string, names: seq<string>)
    requires names != []
    ensures var n := names[|names| - 1];
            var before := RawFilesIn(fs, folder, names[..|names| - 1]);
            RawFilesIn(fs, folder, names)
            == if IsFile(fs, Join(folder, n)) && IsRecognised(n) then before + [Join(folder, n)] else before
  {
  }

  /** Every kept path is a listed name that is a regular file with a
      recognised extension. */
  lemma {:induction false} RawFilesInSound(fs: FileSystem, folder: string, names: seq<string>)
    ensures forall p :: p in RawFilesIn(fs, folder, names) ==>
              exists n :: n in names && p == Join(folder, n) && IsFile(fs, p) && IsRecognised(n)
  {
    if names != [] {
      var front := names[..|names| - 1];
      RawFilesInSound(fs, folder, front);
      forall p | p in RawFilesIn(fs, folder, names)
        ensures exists n :: n in names && p == Join(folder, n) && IsFile(fs, p) && IsRecognised(n)
      {
        if p in RawFilesIn(fs, folder, front) {
          var n :| n in front && p == Join(folder, n) && IsFile(fs, p) && IsRecognised(n);
          assert n in names;
        } else {
          assert p == Join(folder, names[|names| - 1]);
        }
      }
    }
  }

  /** Every listed regular file with a recognised extension is kept. */
  lemma {:induction false} RawFilesInComplete(fs: FileSystem, folder: string, names: seq<string>)
    ensures forall n :: n in names && IsFile(fs, Join(folder, n)) && IsRecognised(n) ==>
              Join(folder, n) in RawFilesIn(fs, folder, names)
  {
    if names != [] {
      var front := names[..|names| - 1];
      var n := names[|names| - 1];
      RawFilesInComplete(fs, folder, front);
      RawFilesInStep(fs, folder, names);
      forall m | m in names && IsFile(fs, Join(folder, m)) && IsRecognised(m)
        ensures Join(folder, m) in RawFilesIn(fs, folder, names)
      {
        if m != n {
          var k :| 0 <= k < |names| && names[k] == m;
          assert front[k] == m;
        }
      }
    }
  }

  /** Sorted names give sorted paths. */
  lemma {:induction false} RawFilesInSorted(fs: FileSystem, folder: string, names: seq<string>)
    requires SortedNames(names)
    ensures SortedNames(RawFilesIn(fs, folder, names))
  {
    if names != [] {
      var front := names[..|names| - 1];
      var n := names[|names| - 1];
      RawFilesInSorted(fs, folder, front);
      RawFilesInSound(fs, folder, front);
      RawFilesInStep(fs, folder, names);
      var rest := RawFilesIn(fs, folder, front);
      if IsFile(fs, Join(folder, n)) && IsRecognised(n) {
        var r := rest + [Join(folder, n)];
        forall i, j | 0 <= i < j < |r| ensures Below(r[i], r[j]) {
          if j == |r| - 1 {
            assert r[i] in rest;
            var m :| m in front && r[i] == Join(folder, m) && IsFile(fs, r[i]) && IsRecognised(m);
            var k :| 0 <= k < |front| && front[k] == m;
            assert Below(names[k], names[|names| - 1]);
            BelowPrefix(folder + [Sep], m, n);
          } else {
            assert r[i] == rest[i] && r[j] == rest[j];
          }
        }
      }
    }
  }

  /** list_raw_files returns [] for a path that is not a folder; otherwise
      exactly the regular files of the folder with a recognised lower-cased
      extension, in ascending order. */
  lemma RawFilesSpec(fs: FileSystem, folder: string)
    ensures !IsDir(fs, folder) ==> RawFiles(fs, folder) == []
    ensures IsDir(fs, folder) ==>
              forall p :: p in RawFiles(fs, folder) <==>
                exists n :: n in ListDir(fs, folder) && p == Join(folder, n) && IsFile(fs, p) && IsRecognised(n)
    ensures SortedNames(RawFiles(fs, folder))
  {
    if IsDir(fs, folder) {
      var listed := ListDir(fs, folder);
      var names := SortNames(listed);
      SortNamesSorted(listed);
      RawFilesInSound(fs, folder, names);
      RawFilesInComplete(fs, folder, names);
      RawFilesInSorted(fs, folder, names);
      SortNamesSameNames(listed);
    }
  }

  // ---------------------------------------------------------------------
  // The pre-scan
  // ---------------------------------------------------------------------

  /** One entry of the pre_scan dictionary. */
  datatype ScanItem = ScanItem(client: string, week: Option<string>, files: seq<string>, tasks: nat)

  /** How a revision estimates the steps of a found client. */
  datatype Estimate =
    | FourSteps      // find + prepare + merge + ledger
    | StepPerFile    // find + one per raw file + merge + ledger

  function ScanClient(fs: FileSystem, mainFolder: string, client: string, week: string, estimate: Estimate): ScanItem
  {
    var found := WeekFolder(fs, Join(mainFolder, client), week);
    if found.None? then ScanItem(client, None, [], 1)
    else
      var files := RawFiles(fs, found.value);
      ScanItem(client, found, files, if estimate == FourSteps then 4 else 1 + |files| + 1 + 1)
  }

  function TotalTasks(items: seq<ScanItem>): nat
  {
    if items == [] then 0 else TotalTasks(items[..|items| - 1]) + items[|items| - 1].tasks
  }

  /** The scan items of the selected clients, in order. */
  function ScanAll(fs: FileSystem, mainFolder: string, clients: seq<string>, week: string, estimate: Estimate): (r: seq<ScanItem>)
    ensures |r| == |clients|
  {
    if clients == [] then []
    else ScanAll(fs, mainFolder, clients[..|clients| - 1], week, estimate)
         + [ScanClient(fs, mainFolder, clients[|clients| - 1], week, estimate)]
  }

  /** Item i of the scan is the scan of client i. */
  lemma {:induction false} ScanAllAt(fs: FileSystem, mainFolder: string, clients: seq<string>, week: string, estimate: Estimate)
    ensures forall i :: 0 <= i < |clients| ==>
              ScanAll(fs, mainFolder, clients, week, estimate)[i] == ScanClient(fs, mainFolder, clients[i], week, estimate)
  {
    if clients != [] {
      var front := clients[..|clients| - 1];
      ScanAllAt(fs, mainFolder, front, week, estimate);
      forall i | 0 <= i < |clients|
        ensures ScanAll(fs, mainFolder, clients, week, estimate)[i] == ScanClient(fs, mainFolder, clients[i], week, estimate)
      {
        if i < |front| {
          assert front[i] == clients[i];
        }
      }
    }
  }

  /** The scan loop over the selected clients. */
  method QuickScan(fs: FileSystem, mainFolder: string, clients: seq<string>, week: string, estimate: Estimate)
    returns (items: seq<ScanItem>, total: nat)
    ensures |items| == |clients|
    ensures forall i :: 0 <= i < |clients| ==> items[i] == ScanClient(fs, mainFolder, clients[i], week, estimate)
    ensures total == TotalTasks(items)
  {
    items, total := [], 0;
    var i := 0;
    while i < |clients|
      invariant 0 <= i <= |clients|
      invariant items == ScanAll(fs, mainFolder, clients[..i], week, estimate)
      invariant total == TotalTasks(items)
    {
      var item := ScanOne(fs, mainFolder, clients[i], week, estimate);
      assert clients[..i + 1][..i] == clients[..i];
      assert (items + [item])[..|items|] == items;
      items := items + [item];
      total := total + item.tasks;
      i := i + 1;
    }
    assert clients[..i] == clients;
    ScanAllAt(fs, mainFolder, clients, week, estimate);
  }

  /** One client of the scan loop. */
  method ScanOne(fs: FileSystem, mainFolder: string, client: string, week: string, estimate: Estimate)
    returns (item: ScanItem)
    ensures item == ScanClient(fs, mainFolder, client, week, estimate)
  {
    var found := FindWeekFolder(fs, Join(mainFolder, client), week);
    if found.None? {
      item := ScanItem(client, None, [], 1);
    } else {
      var files := ListRawFiles(fs, found.value);
      var tasks := if estimate == FourSteps then 4 else 1 + |files| + 1 + 1;
      item := ScanItem(client, found, files, tasks);
    }
  }

  /** The estimate of one client: one step when its week folder is missing,
      otherwise four, or three plus one per raw file. */
  lemma ScanClientTasks(fs: FileSystem, mainFolder: string, client: string, week: string, estimate: Estimate)
    ensures var item := ScanClient(fs, mainFolder, client, week, estimate);
            item.client == client
            && item.week == WeekFolder(fs, Join(mainFolder, client), week)
            && (item.week.None? ==> item.tasks == 1 && item.files == [])
            && (item.week.Some? ==> item.files == RawFiles(fs, item.week.value)
                                    && item.tasks == if estimate == FourSteps then 4 else |item.files| + 3)
  {
  }

  /** The estimate refresh_scan records for an item when a step is counted
      per raw file: one when no week folder was found, otherwise one for the
      folder, one per raw file, one for the merge and one for the ledger. */
  predicate EstimateHolds(item: ScanItem)
  {
    item.tasks == if item.week.Some? && item.week.value != [] then |item.files| + 3 else 1
  }

  /** refresh_scan's items carry the estimate. */
  lemma ScanEstimateHolds(fs: FileSystem, mainFolder: string, client: string, week: string)
    ensures EstimateHolds(ScanClient(fs, mainFolder, client, week, StepPerFile))
  {
    if WeekFolder(fs, Join(mainFolder, client), week).Some? {
      WeekFolderIsDir(fs, Join(mainFolder, client), week);
    }
  }

  /** The total is the sum of the per-client estimates, at least one per client. */
  lemma {:induction false} TotalTasksAtLeastClients(items: seq<ScanItem>)
    requires forall i :: 0 <= i < |items| ==> items[i].tasks >= 1
    ensures TotalTasks(items) >= |items|
  {
    if items != [] {
      TotalTasksAtLeastClients(items[..|items| - 1]);
    }
  }
}
