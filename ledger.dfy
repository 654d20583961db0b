/** The invoice ledger: the active worksheet of the workbook, column B holding
    client names and column G receiving the merged file's path. Row r of the
    sheet is index r - 1 of the array; the client rows start at row 4. */
module Ledger {
  import opened Text

  /** A cell value: empty (None in openpyxl) or text. */
  datatype Cell = Empty | Text(s: string)

  datatype Row = Row(name: Cell, path: Cell)

  /** Index of row 4, the first client row. */
  const FirstClientRow: nat := 3

  /** str(value): an empty cell reads "None". */
  function CellStr(c: Cell): string
  {
    match c
    case Empty => "None"
    case Text(s) => s
  }

  /** Python truthiness of a cell value. */
  predicate Truthy(c: Cell)
  {
    c.Text? && c.s != []
  }

  /** How a revision decides that a row names the client. */
  datatype MatchRule =
    | StripEquals         // str(cell).strip() == client
    | TruthyStripEquals   // cell and str(cell).strip() == client
    | TruthyStripOrFold   // cell and (stripped equal, or equal once lower-cased)

  predicate Matches(rule: MatchRule, c: Cell, client: string)
  {
    match rule
    case StripEquals => Strip(CellStr(c)) == client
    case TruthyStripEquals => Truthy(c) && Strip(CellStr(c)) == client
    case TruthyStripOrFold =>
      Truthy(c) && (Strip(CellStr(c)) == Strip(client) || Lower(Strip(CellStr(c))) == Lower(Strip(client)))
  }

  /** The first client row at or after `k` whose name matches. */
  function FirstMatchFrom(rows: seq<Row>, rule: MatchRule, client: string, k: nat): (r: Option<nat>)
    ensures r.Some? ==> k <= r.value < |rows| && Matches(rule, rows[r.value].name, client)
    decreases |rows| - k
  {
    if k >= |rows| then None
    else if Matches(rule, rows[k].name, client) then Some(k)
    else FirstMatchFrom(rows, rule, client, k + 1)
  }

  /** The row the loop over rows 4..max_row stops at. */
  function FirstMatch(rows: seq<Row>, rule: MatchRule, client: string): Option<nat>
  {
    FirstMatchFrom(rows, rule, client, FirstClientRow)
  }

  lemma FirstMatchFromSpec(rows: seq<Row>, rule: MatchRule, client: string, k: nat)
    ensures FirstMatchFrom(rows, rule, client, k).None? <==>
              forall j :: k <= j < |rows| ==> !Matches(rule, rows[j].name, client)
    ensures FirstMatchFrom(rows, rule, client, k).Some? ==>
              var m := FirstMatchFrom(rows, rule, client, k).value;
              k <= m < |rows| && Matches(rule, rows[m].name, client)
              && forall j :: k <= j < m ==> !Matches(rule, rows[j].name, client)
  {
    FirstMatchFromNone(rows, rule, client, k);
    FirstMatchFromFirst(rows, rule, client, k);
  }

  lemma {:induction false} FirstMatchFromNone(rows: seq<Row>, rule: MatchRule, client: string, k: nat)
    ensures FirstMatchFrom(rows, rule, client, k).None? <==>
              forall j :: k <= j < |rows| ==> !Matches(rule, rows[j].name, client)
    decreases |rows| - k
  {
    if k < |rows| && !Matches(rule, rows[k].name, client) {
      FirstMatchFromNone(rows, rule, client, k + 1);
    }
  }

  lemma {:induction false} FirstMatchFromFirst(rows: seq<Row>, rule: MatchRule, client: string, k: nat)
    ensures FirstMatchFrom(rows, rule, client, k).Some? ==>
              forall j :: k <= j < FirstMatchFrom(rows, rule, client, k).value ==> !Matches(rule, rows[j].name, client)
    decreases |rows| - k
  {
    if k < |rows| && !Matches(rule, rows[k].name, client) {
      FirstMatchFromFirst(rows, rule, client, k + 1);
    }
  }

  /** The loop stops at the first client row naming the client, and finds none
      only when no client row names it. */
  lemma FirstMatchSpec(rows: seq<Row>, rule: MatchRule, client: string)
    ensures FirstMatch(rows, rule, client).None? <==>
              forall j :: FirstClientRow <= j < |rows| ==> !Matches(rule, rows[j].name, client)
    ensures FirstMatch(rows, rule, client).Some? ==>
              var m := FirstMatch(rows, rule, client).value;
              FirstClientRow <= m < |rows| && Matches(rule, rows[m].name, client)
              && forall j :: FirstClientRow <= j < m ==> !Matches(rule, rows[j].name, client)
  {
    FirstMatchFromSpec(rows, rule, client, FirstClientRow);
  }

  /** The sheet after the lookup: column G of the matching row holds `value`. */
  function Updated(rows: seq<Row>, rule: MatchRule, client: string, value: string): seq<Row>
  {
    match FirstMatch(rows, rule, client)
    case None => rows
    case Some(m) => rows[m := rows[m].(path := Text(value))]
  }

  /** The lookup loop over rows 4..max_row; true when a row was updated. */
  method UpdateLedger(sheet: array<Row>, rule: MatchRule, client: string, value: string) returns (found: bool)
    modifies sheet
    ensures found <==> FirstMatch(old(sheet[..]), rule, client).Some?
    ensures sheet[..] == Updated(old(sheet[..]), rule, client, value)
  {
    ghost var rows := sheet[..];
    var r := FirstClientRow;
    while r < sheet.Length
      invariant FirstClientRow <= r <= sheet.Length || (sheet.Length < FirstClientRow && r == FirstClientRow)
      invariant sheet[..] == rows
      invariant FirstMatchFrom(rows, rule, client, r) == FirstMatch(rows, rule, client)
      decreases sheet.Length - r
    {
      if Matches(rule, sheet[r].name, client) {
        assert FirstMatch(rows, rule, client) == Some(r);
        sheet[r] := sheet[r].(path := Text(value));
        return true;
      }
      assert FirstMatchFrom(rows, rule, client, r) == FirstMatchFrom(rows, rule, client, r + 1);
      r := r + 1;
    }
    found := false;
  }

  /** Only column G of the matching row changes; column B and every other row
      keep their contents. */
  lemma UpdatedChangesOneCell(rows: seq<Row>, rule: MatchRule, client: string, value: string)
    ensures |Updated(rows, rule, client, value)| == |rows|
    ensures forall j :: 0 <= j < |rows| ==> Updated(rows, rule, client, value)[j].name == rows[j].name
    ensures forall j :: 0 <= j < |rows| && Some(j) != FirstMatch(rows, rule, client) ==>
              Updated(rows, rule, client, value)[j] == rows[j]
    ensures FirstMatch(rows, rule, client).Some? ==>
              Updated(rows, rule, client, value)[FirstMatch(rows, rule, client).value].path == Text(value)
  {
    FirstMatchSpec(rows, rule, client);
  }

  /** Updating twice with the same path is the same as updating once. */
  lemma UpdatedIdempotent(rows: seq<Row>, rule: MatchRule, client: string, value: string)
    ensures Updated(Updated(rows, rule, client, value), rule, client, value) == Updated(rows, rule, client, value)
  {
    var u := Updated(rows, rule, client, value);
    UpdatedChangesOneCell(rows, rule, client, value);
    SameNamesSameMatch(rows, u, rule, client, FirstClientRow);
  }

  /** The lookup reads column B only. */
  lemma {:induction false} SameNamesSameMatch(a: seq<Row>, b: seq<Row>, rule: MatchRule, client: string, k: nat)
    requires |a| == |b| && forall j :: 0 <= j < |a| ==> a[j].name == b[j].name
    ensures FirstMatchFrom(a, rule, client, k) == FirstMatchFrom(b, rule, client, k)
    decreases |a| - k
  {
    if k < |a| {
      SameNamesSameMatch(a, b, rule, client, k + 1);
    }
  }

  /** Without a truthiness test an empty name cell reads "None", so it matches
      the client named "None" and no other. */
  lemma EmptyCellReadsNone(client: string)
    ensures Matches(StripEquals, Empty, client) <==> client == "None"
    ensures !Matches(TruthyStripEquals, Empty, client) && !Matches(TruthyStripOrFold, Empty, client)
  {
    assert Strip("None") == "None" by {
      assert !IsSpace('N') && !IsSpace('e');
    }
  }

  /** 114.py's two-step comparison is a single case-insensitive one: the exact
      test never accepts a row the lower-cased test would reject. */
  lemma FoldRuleIsCaseInsensitive(c: Cell, client: string)
    ensures Matches(TruthyStripOrFold, c, client) <==>
              Truthy(c) && Lower(Strip(CellStr(c))) == Lower(Strip(client))
  {
  }

  /** The rules are ordered: a strict match is also a match under the
      case-insensitive rule, and (for a stripped client name) under the rule
      without a truthiness test. */
  lemma RulesOrdered(c: Cell, client: string)
    ensures Matches(TruthyStripEquals, c, client) ==> Matches(StripEquals, c, client)
    ensures Matches(TruthyStripEquals, c, client) && Strip(client) == client ==> Matches(TruthyStripOrFold, c, client)
  {
  }
}
