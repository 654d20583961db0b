/** The state a merge run changes as it goes: the disk, the ledger sheet, the
    status counters of 114 and 111 and its tasks_done counter behind the
    progress bar. */
module Progress {
  import opened Disk
  import opened Ledger

  /** The status bar counters of 114.py and 111.py. */
  datatype Tally = Tally(processed: nat, merged: nat, warnings: nat, errors: nat)

  const NoTally: Tally := Tally(0, 0, 0, 0)

  /** Everything a run changes, as one value. Revisions without a status bar
      keep the tally at NoTally. */
  datatype State = State(fs: FileSystem, rows: seq<Row>, tally: Tally, done: nat)

  /** One call of _increment_task_and_update (or task_done += 1). */
  function Tick(st: State): State
  {
    st.(done := st.done + 1)
  }

  function AddWarning(st: State): State
  {
    st.(tally := st.tally.(warnings := st.tally.warnings + 1))
  }

  function AddError(st: State): State
  {
    st.(tally := st.tally.(errors := st.tally.errors + 1))
  }

  /** The percentage shown: int(done / max(1, total) * 100), capped at 100 in
      114.py. */
  function Percent(done: nat, total: nat, capped: bool): (r: nat)
    ensures capped ==> r <= 100
  {
    var p := done * 100 / (if total == 0 then 1 else total);
    if capped && p > 100 then 100 else p
  }

  /** Within the estimate the bar never passes 100, reaches 100 exactly when
      every estimated task is done, and the cap makes no difference. */
  lemma PercentWithinEstimate(done: nat, total: nat, capped: bool)
    requires done <= total
    ensures Percent(done, total, capped) <= 100
    ensures Percent(done, total, capped) == Percent(done, total, false)
    ensures 0 < total ==> (Percent(done, total, capped) == 100 <==> done == total)
  {
    if 0 < total {
      var p := (done * 100) / total;
      if done < total {
        assert done * 100 < total * 100;
        assert p * total <= done * 100;
        MulCancel(p, 100, total);
      } else {
        assert total * 100 == 100 * total;
        assert p == 100;
      }
    }
  }

  /** More tasks done never moves the bar back. */
  lemma PercentMonotone(d1: nat, d2: nat, total: nat, capped: bool)
    requires d1 <= d2
    ensures Percent(d1, total, capped) <= Percent(d2, total, capped)
  {
    var t := if total == 0 then 1 else total;
    assert d1 * 100 <= d2 * 100;
    DivMonotone(d1 * 100, d2 * 100, t);
  }

  lemma DivMonotone(a: nat, b: nat, t: nat)
    requires a <= b && 0 < t
    ensures a / t <= b / t
  {
    var q1, q2 := a / t, b / t;
    assert q1 * t <= a;
    assert b < (q2 + 1) * t;
    MulCancel(q1, q2 + 1, t);
  }

  lemma MulCancel(x: nat, y: nat, t: nat)
    requires 0 < t && x * t < y * t
    ensures x < y
  {
    if x >= y {
      MulMonotone(y, x, t);
    }
  }

  lemma MulMonotone(x: nat, y: nat, t: nat)
    requires x <= y
    ensures x * t <= y * t
  {
  }

  /** Without the cap, more tasks than estimated show more than 100 percent. */
  lemma UncappedOverrun()
    ensures Percent(5, 4, false) == 125
    ensures Percent(5, 4, true) == 100
  {
  }

  /** The application object while a merge runs. */
  class Session {
    var fs: FileSystem
    var tally: Tally
    var tasksDone: nat
    const totalTasks: nat
    const capped: bool
    const sheet: array<Row>

    /** A run starts with tasks_done and the counters at zero. */
    constructor (fs: FileSystem, sheet: array<Row>, totalTasks: nat, capped: bool)
      ensures this.fs == fs && this.sheet == sheet && this.totalTasks == totalTasks && this.capped == capped
      ensures tally == NoTally && tasksDone == 0
    {
      this.fs := fs;
      this.sheet := sheet;
      this.totalTasks := totalTasks;
      this.capped := capped;
      tally := NoTally;
      tasksDone := 0;
    }

    function Snapshot(): State
      reads this, sheet
    {
      State(fs, sheet[..], tally, tasksDone)
    }

    /** The value the progress bar is set to. */
    function Shown(): nat
      reads this
    {
      Percent(tasksDone, totalTasks, capped)
    }

    method Increment()
      modifies this
      ensures Snapshot() == Tick(old(Snapshot()))
      ensures Shown() >= old(Shown())
    {
      tasksDone := tasksDone + 1;
      PercentMonotone(old(tasksDone), tasksDone, totalTasks, capped);
    }

    method Warn()
      modifies this
      ensures Snapshot() == AddWarning(old(Snapshot()))
    {
      tally := tally.(warnings := tally.warnings + 1);
    }

    method Fail()
      modifies this
      ensures Snapshot() == AddError(old(Snapshot()))
    {
      tally := tally.(errors := tally.errors + 1);
    }
  }
}
