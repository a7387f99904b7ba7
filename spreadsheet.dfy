/** The spreadsheet behind the FMEA, Pareto, SWOT and 5S dashboards: a header
    row and rows of loosely typed cells, with two derivation rules (the FMEA
    risk priority number and the Pareto cumulative percentage) re-applied
    after every edit, and the copy kept in browser storage under
    `EQPS_DATA_<tool id>`. */
module Spreadsheet {
  import opened Wrappers
  import opened Numerals

  /** A cell as the table holds it: a number, a piece of text (every edit
      arrives as text), a cumulative percentage written by the Pareto rule,
      kept as the exact ratio `part / whole` of which it shows 100 times
      (its `toFixed(1) + '%'` text is presentation), or a hole left when a
      derived column lies beyond the end of a short row. */
  datatype Cell = Num(value: real) | Text(text: string) | Percent(part: real, whole: real) | Missing

  type Row = seq<Cell>

  datatype Sheet = Sheet(headers: seq<string>, rows: seq<Row>)

  const FmeaId: string := "fmea-dashboard"
  const ParetoId: string := "pareto-dashboard"

  /** Column indices the derivation rules read and write. */
  const SeverityCol: nat := 3
  const OccurrenceCol: nat := 4
  const DetectionCol: nat := 5
  const RpnCol: nat := 6
  const FrequencyCol: nat := 1
  const CumulativeCol: nat := 2

  /** `Number(c)`: `None` where JavaScript gives `NaN`. Text converts when it
      is a (possibly empty) string of decimal digits. */
  function ToNumber(c: Cell): (r: Option<real>)
    ensures c.Num? ==> r == Some(c.value)
    ensures c.Text? && IsDigits(c.text) ==> r == Some(DigitsValue(c.text) as real)
    ensures c.Text? && !IsDigits(c.text) ==> r == None
    ensures (c.Percent? || c.Missing?) ==> r == None
  {
    match c
    case Num(v) => Some(v)
    case Text(s) => if IsDigits(s) then Some(DigitsValue(s) as real) else None
    case Percent(_, _) => None
    case Missing => None
  }

  /** `Number(c) || 0`: a cell that is not a number counts as 0. */
  function Coerce(c: Cell): (r: real)
    ensures ToNumber(c).Some? ==> r == ToNumber(c).value
    ensures ToNumber(c).None? ==> r == 0.0
  {
    ToNumber(c).GetOr(0.0)
  }

  /** `row[k]`, which is `undefined` past the end of the row. */
  function Get(row: Row, k: nat): Cell
  {
    if k < |row| then row[k] else Missing
  }

  /** `newRow[k] = c` on a copy of the row: past the end the row grows,
      leaving holes between its old end and `k`. */
  function SetCell(row: Row, k: nat, c: Cell): (r: Row)
    ensures |r| == if k < |row| then |row| else k + 1
    ensures Get(r, k) == c
    ensures forall j :: 0 <= j < |row| && j != k ==> r[j] == row[j]
    ensures forall j :: |row| <= j < k ==> r[j] == Missing
    ensures forall j: nat {:trigger Get(r, j)} :: j != k ==> Get(r, j) == Get(row, j)
  {
    if k < |row| then row[k := c] else row + seq(k - |row|, _ => Missing) + [c]
  }

  lemma SetCellTwice(row: Row, k: nat, c: Cell, d: Cell)
    ensures SetCell(SetCell(row, k, c), k, d) == SetCell(row, k, d)
  {
  }

  /* ---------------- FMEA: risk priority number ---------------- */

  /** The risk priority number: severity x occurrence x detection. A
      factor that is missing or not a number zeroes it. */
  function Rpn(row: Row): (r: Cell)
    ensures r.Num?
    ensures (ToNumber(Get(row, SeverityCol)).None? || ToNumber(Get(row, OccurrenceCol)).None?
             || ToNumber(Get(row, DetectionCol)).None?) ==> r == Num(0.0)
  {
    Num(Coerce(Get(row, SeverityCol)) * Coerce(Get(row, OccurrenceCol)) * Coerce(Get(row, DetectionCol)))
  }

  /** Column 6 receives the row's RPN. */
  function FmeaRow(row: Row): (r: Row)
    ensures Get(r, RpnCol) == Rpn(row)
    ensures forall k: nat :: k != RpnCol ==> Get(r, k) == Get(row, k)
  {
    SetCell(row, RpnCol, Rpn(row))
  }

  lemma FmeaRowIdempotent(row: Row)
    ensures FmeaRow(FmeaRow(row)) == FmeaRow(row)
  {
    var r := FmeaRow(row);
    assert Get(r, SeverityCol) == Get(row, SeverityCol);
    assert Get(r, OccurrenceCol) == Get(row, OccurrenceCol);
    assert Get(r, DetectionCol) == Get(row, DetectionCol);
    assert Rpn(r) == Rpn(row);
    SetCellTwice(row, RpnCol, Rpn(row), Rpn(row));
  }

  /** Whatever sits in the RPN cell is overwritten. */
  lemma FmeaRowIgnoresRpn(row: Row, v: Cell)
    requires RpnCol < |row|
    ensures FmeaRow(row[RpnCol := v]) == FmeaRow(row)
  {
    var e := row[RpnCol := v];
    assert e[SeverityCol] == row[SeverityCol] && e[OccurrenceCol] == row[OccurrenceCol]
      && e[DetectionCol] == row[DetectionCol];
    assert Rpn(e) == Rpn(row);
    calc {
      FmeaRow(e);
      SetCell(e, RpnCol, Rpn(e));
      e[RpnCol := Rpn(row)];
      row[RpnCol := Rpn(row)];
      SetCell(row, RpnCol, Rpn(row));
    }
  }

  function FmeaRows(rows: seq<Row>): (r: seq<Row>)
    ensures |r| == |rows|
    ensures forall i :: 0 <= i < |rows| ==> r[i] == FmeaRow(rows[i])
  {
    seq(|rows|, i requires 0 <= i < |rows| => FmeaRow(rows[i]))
  }

  /** Every row keeps its place; its RPN is the product of its S, O and D
      cells with non-numbers counted as 0; every other cell is unchanged. */
  lemma FmeaRpn(rows: seq<Row>, i: nat)
    requires i < |rows|
    ensures |FmeaRows(rows)| == |rows|
    ensures Get(FmeaRows(rows)[i], RpnCol)
         == Num(Coerce(Get(rows[i], 3)) * Coerce(Get(rows[i], 4)) * Coerce(Get(rows[i], 5)))
    ensures forall k: nat :: k != RpnCol ==> Get(FmeaRows(rows)[i], k) == Get(rows[i], k)
    ensures |FmeaRows(rows)[i]| == if RpnCol < |rows[i]| then |rows[i]| else RpnCol + 1
  {
  }

  /* ---------------- Pareto: stable descending sort ---------------- */

  /** The sort key and the summand of the total: `Number(row[1])`. */
  function Key(row: Row): real
  {
    Coerce(Get(row, FrequencyCol))
  }

  /** Every frequency cell is a number, so `Number(row[1])` is never `NaN`. */
  predicate KeysNumeric(rows: seq<Row>)
  {
    forall i :: 0 <= i < |rows| ==> ToNumber(Get(rows[i], FrequencyCol)).Some?
  }

  predicate SortedDesc(s: seq<Row>)
  {
    forall i, j :: 0 <= i < j < |s| ==> Key(s[i]) >= Key(s[j])
  }

  /** Places `x` before the first row whose key it is not below. */
  function Insert(x: Row, t: seq<Row>): (r: seq<Row>)
    ensures |r| == |t| + 1
  {
    if t == [] || Key(x) >= Key(t[0]) then [x] + t else [t[0]] + Insert(x, t[1..])
  }

  /** `rows.sort((a, b) => Number(b[1]) - Number(a[1]))`: descending by
      frequency, rows with equal frequency in their original order. */
  function SortDesc(s: seq<Row>): (r: seq<Row>)
    ensures |r| == |s|
    ensures multiset(r) == multiset(s)
    ensures SortedDesc(r)
  {
    if s == [] then []
    else
      var t := SortDesc(s[1..]);
      InsertMultiset(s[0], t);
      InsertSorted(s[0], t);
      assert s == [s[0]] + s[1..];
      Insert(s[0], t)
  }

  /** The rows whose key is `v`, in order. */
  function WithKey(s: seq<Row>, v: real): seq<Row>
  {
    if s == [] then []
    else (if Key(s[0]) == v then [s[0]] else []) + WithKey(s[1..], v)
  }

  lemma {:induction false} InsertMultiset(x: Row, t: seq<Row>)
    ensures multiset(Insert(x, t)) == multiset{x} + multiset(t)
  {
    if t != [] && Key(x) < Key(t[0]) {
      InsertMultiset(x, t[1..]);
      assert t == [t[0]] + t[1..];
    }
  }

  lemma {:induction false} InsertSorted(x: Row, t: seq<Row>)
    requires SortedDesc(t)
    ensures SortedDesc(Insert(x, t))
    ensures Insert(x, t)[0] == x || (t != [] && Insert(x, t)[0] == t[0])
  {
    if t != [] && Key(x) < Key(t[0]) {
      InsertSorted(x, t[1..]);
      var r := Insert(x, t[1..]);
      assert forall j :: 0 <= j < |r| ==> Key(t[0]) >= Key(r[j]) by {
        InsertMultiset(x, t[1..]);
        forall j | 0 <= j < |r|
          ensures Key(t[0]) >= Key(r[j])
        {
          assert r[j] in multiset(r);
          assert r[j] == x || r[j] in multiset(t[1..]);
          if r[j] != x {
            assert r[j] in t[1..];
          }
        }
      }
    }
  }

  lemma {:induction false} InsertWithKey(x: Row, t: seq<Row>, v: real)
    ensures WithKey(Insert(x, t), v) == (if Key(x) == v then [x] else []) + WithKey(t, v)
  {
    if t == [] || Key(x) >= Key(t[0]) {
      assert ([x] + t)[1..] == t;
    } else {
      var r := Insert(x, t[1..]);
      InsertWithKey(x, t[1..], v);
      assert ([t[0]] + r)[1..] == r;
      assert WithKey(Insert(x, t), v) == (if Key(t[0]) == v then [t[0]] else []) + WithKey(r, v);
      assert WithKey(t, v) == (if Key(t[0]) == v then [t[0]] else []) + WithKey(t[1..], v);
      if Key(x) == v {
        assert Key(t[0]) != v;
      }
    }
  }

  /** The sort is stable: the rows sharing any one frequency keep their
      relative order. */
  lemma {:induction false} SortDescStable(s: seq<Row>, v: real)
    ensures WithKey(SortDesc(s), v) == WithKey(s, v)
  {
    if s != [] {
      SortDescStable(s[1..], v);
      InsertWithKey(s[0], SortDesc(s[1..]), v);
    }
  }

  /** Rows already in order are left where they are. */
  lemma {:induction false} SortDescOfSorted(s: seq<Row>)
    requires SortedDesc(s)
    ensures SortDesc(s) == s
  {
    if s != [] {
      SortDescOfSorted(s[1..]);
      assert s == [s[0]] + s[1..];
    }
  }

  /* ---------------- Pareto: cumulative percentage ---------------- */

  /** The sum of the frequencies, the `reduce` of the source. */
  function Total(rows: seq<Row>): (t: real)
  {
    if rows == [] then 0.0 else Total(rows[..|rows| - 1]) + Key(rows[|rows| - 1])
  }

  /** The cumulative cell for a running sum out of a total:
      `(runningSum / total) * 100` as a percentage, or the text "0%" when the
      total is not positive. */
  function Share(running: real, total: real): (c: Cell)
    ensures c.Percent? <==> total > 0.0
    ensures c.Percent? ==> c.whole == total
  {
    if total > 0.0 then Percent(running, total) else Text("0%")
  }

  /** Each row, in the given order, gets in column 2 its running share of
      the total. */
  function Annotated(rows: seq<Row>): (r: seq<Row>)
    ensures |r| == |rows|
  {
    seq(|rows|, i requires 0 <= i < |rows| => SetCell(rows[i], CumulativeCol, Share(Total(rows[..i + 1]), Total(rows))))
  }

  /** The running-sum loop of the source: one pass for the total, one pass
      that adds each frequency to `running` and writes the share. */
  method Annotate(rows: seq<Row>) returns (out: seq<Row>)
    ensures out == Annotated(rows)
  {
    var total := 0.0;
    var i := 0;
    while i < |rows|
      invariant 0 <= i <= |rows|
      invariant total == Total(rows[..i])
    {
      assert rows[..i + 1][..i] == rows[..i];
      total := total + Key(rows[i]);
      i := i + 1;
    }
    assert rows[..|rows|] == rows;
    var running := 0.0;
    out := [];
    i := 0;
    while i < |rows|
      invariant 0 <= i <= |rows|
      invariant |out| == i
      invariant running == Total(rows[..i])
      invariant forall j :: 0 <= j < i ==> out[j] == Annotated(rows)[j]
    {
      assert rows[..i + 1][..i] == rows[..i];
      running := running + Key(rows[i]);
      out := out + [SetCell(rows[i], CumulativeCol, Share(running, total))];
      i := i + 1;
    }
  }

  lemma AnnotatedAt(rows: seq<Row>, i: nat)
    requires i < |rows|
    ensures Annotated(rows)[i] == SetCell(rows[i], CumulativeCol, Share(Total(rows[..i + 1]), Total(rows)))
  {
  }

  /** Column 2 holds the running total through row `i` as a percentage of
      the total, or "0%" when the total is not positive. */
  lemma ParetoShare(rows: seq<Row>, i: nat)
    requires i < |rows|
    ensures Total(rows) > 0.0 ==>
      Get(Annotated(rows)[i], CumulativeCol) == Percent(Total(rows[..i + 1]), Total(rows))
    ensures Total(rows) <= 0.0 ==> Get(Annotated(rows)[i], CumulativeCol) == Text("0%")
  {
    AnnotatedAt(rows, i);
    var c := Share(Total(rows[..i + 1]), Total(rows));
    assert Get(SetCell(rows[i], CumulativeCol, c), CumulativeCol) == c;
  }

  /** Every cell outside column 2 is left as it was. */
  lemma ParetoKeepsOtherColumns(rows: seq<Row>, i: nat)
    requires i < |rows|
    ensures forall k: nat :: k != CumulativeCol ==> Get(Annotated(rows)[i], k) == Get(rows[i], k)
  {
    AnnotatedAt(rows, i);
  }

  /** The last row reaches 100%. */
  lemma ParetoLastIsHundred(rows: seq<Row>)
    requires rows != [] && Total(rows) > 0.0
    ensures Get(Annotated(rows)[|rows| - 1], CumulativeCol) == Percent(Total(rows), Total(rows))
  {
    ParetoShare(rows, |rows| - 1);
    assert rows[..|rows|] == rows;
  }

  predicate NonNegativeKeys(rows: seq<Row>)
  {
    forall i :: 0 <= i < |rows| ==> Key(rows[i]) >= 0.0
  }

  lemma {:induction false} TotalPrefixMonotone(rows: seq<Row>, i: nat, j: nat)
    requires NonNegativeKeys(rows)
    requires i <= j <= |rows|
    ensures 0.0 <= Total(rows[..i]) <= Total(rows[..j])
    decreases j
  {
    if j > 0 {
      assert rows[..j][..j - 1] == rows[..j - 1];
      if i < j {
        TotalPrefixMonotone(rows, i, j - 1);
      } else {
        TotalPrefixMonotone(rows, i - 1, j - 1);
      }
    }
  }

  /** With non-negative frequencies the cumulative percentage never falls
      and stays within 0..100: every share has the same whole, and its part
      lies between 0 and that whole. */
  lemma ParetoMonotone(rows: seq<Row>, i: nat, j: nat)
    requires NonNegativeKeys(rows) && Total(rows) > 0.0
    requires i <= j < |rows|
    ensures Get(Annotated(rows)[i], CumulativeCol).Percent?
    ensures Get(Annotated(rows)[j], CumulativeCol).Percent?
    ensures Get(Annotated(rows)[i], CumulativeCol).whole == Total(rows)
    ensures Get(Annotated(rows)[j], CumulativeCol).whole == Total(rows)
    ensures 0.0 <= Get(Annotated(rows)[i], CumulativeCol).part
             <= Get(Annotated(rows)[j], CumulativeCol).part <= Total(rows)
  {
    ParetoShare(rows, i);
    ParetoShare(rows, j);
    TotalPrefixMonotone(rows, i + 1, j + 1);
    TotalPrefixMonotone(rows, j + 1, |rows|);
    assert rows[..|rows|] == rows;
  }

  /** Rows whose frequencies agree have the same total. */
  lemma {:induction false} TotalSameKeys(a: seq<Row>, b: seq<Row>)
    requires |a| == |b|
    requires forall i :: 0 <= i < |a| ==> Key(a[i]) == Key(b[i])
    ensures Total(a) == Total(b)
  {
    if a != [] {
      TotalSameKeys(a[..|a| - 1], b[..|b| - 1]);
    }
  }

  /* ---------------- Rows that differ only in one column ---------------- */

  /** `a` and `b` have the same rows apart from column `k`. */
  predicate SameOffColumn(a: seq<Row>, b: seq<Row>, k: nat)
  {
    |a| == |b| && forall i :: 0 <= i < |a| ==> SetCell(a[i], k, Missing) == SetCell(b[i], k, Missing)
  }

  lemma OffColumnKey(x: Row, y: Row, k: nat)
    requires k != FrequencyCol
    requires SetCell(x, k, Missing) == SetCell(y, k, Missing)
    ensures Key(x) == Key(y)
    ensures forall c :: SetCell(x, k, c) == SetCell(y, k, c)
  {
    assert Get(SetCell(x, k, Missing), FrequencyCol) == Get(x, FrequencyCol);
    assert Get(SetCell(y, k, Missing), FrequencyCol) == Get(y, FrequencyCol);
    forall c
      ensures SetCell(x, k, c) == SetCell(y, k, c)
    {
      SetCellTwice(x, k, Missing, c);
      SetCellTwice(y, k, Missing, c);
    }
  }

  lemma {:induction false} InsertOffColumn(x: Row, t: seq<Row>, y: Row, u: seq<Row>)
    requires SetCell(x, CumulativeCol, Missing) == SetCell(y, CumulativeCol, Missing)
    requires SameOffColumn(t, u, CumulativeCol)
    ensures SameOffColumn(Insert(x, t), Insert(y, u), CumulativeCol)
  {
    OffColumnKey(x, y, CumulativeCol);
    if t != [] {
      OffColumnKey(t[0], u[0], CumulativeCol);
      if Key(x) < Key(t[0]) {
        InsertOffColumn(x, t[1..], y, u[1..]);
      }
    }
  }

  lemma {:induction false} SortDescOffColumn(a: seq<Row>, b: seq<Row>)
    requires SameOffColumn(a, b, CumulativeCol)
    ensures SameOffColumn(SortDesc(a), SortDesc(b), CumulativeCol)
  {
    if a != [] {
      SortDescOffColumn(a[1..], b[1..]);
      InsertOffColumn(a[0], SortDesc(a[1..]), b[0], SortDesc(b[1..]));
    }
  }

  lemma AnnotatedOffColumn(a: seq<Row>, b: seq<Row>)
    requires SameOffColumn(a, b, CumulativeCol)
    ensures Annotated(a) == Annotated(b)
  {
    forall i | 0 <= i < |a|
      ensures Key(a[i]) == Key(b[i])
    {
      OffColumnKey(a[i], b[i], CumulativeCol);
    }
    TotalSameKeys(a, b);
    forall i | 0 <= i < |a|
      ensures Annotated(a)[i] == Annotated(b)[i]
    {
      TotalSameKeys(a[..i + 1], b[..i + 1]);
      OffColumnKey(a[i], b[i], CumulativeCol);
    }
  }

  /** The Pareto rule reads nothing from column 2: rows that differ only
      there come out identical. */
  lemma ParetoIgnoresCumulative(a: seq<Row>, b: seq<Row>)
    requires SameOffColumn(a, b, CumulativeCol)
    ensures Annotated(SortDesc(a)) == Annotated(SortDesc(b))
  {
    SortDescOffColumn(a, b);
    AnnotatedOffColumn(SortDesc(a), SortDesc(b));
  }

  /* ---------------- processLogic ---------------- */

  /** What `processLogic` computes for a tool. The Pareto rule is modelled
      only where every frequency is a number (see `ProcessLogic`). */
  function Processed(sheet: Sheet, id: string): (r: Sheet)
    requires id == ParetoId ==> KeysNumeric(sheet.rows)
    ensures r.headers == sheet.headers
    ensures |r.rows| == |sheet.rows|
  {
    if id == FmeaId then sheet.(rows := FmeaRows(sheet.rows))
    else if id == ParetoId then sheet.(rows := Annotated(SortDesc(sheet.rows)))
    else sheet
  }

  /** `processLogic`: recompute the derived column of the tool's sheet. */
  method ProcessLogic(sheet: Sheet, id: string) returns (r: Sheet)
    requires id == ParetoId ==> KeysNumeric(sheet.rows)
    ensures r == Processed(sheet, id)
  {
    if id == FmeaId {
      return sheet.(rows := FmeaRows(sheet.rows));
    }
    if id == ParetoId {
      var sorted := SortDesc(sheet.rows);
      var rows := Annotate(sorted);
      return sheet.(rows := rows);
    }
    return sheet;
  }

  /** The Pareto output is the input rows reordered, sorted by frequency,
      stable, and changed in column 2 only. */
  lemma ParetoReorders(sheet: Sheet)
    requires KeysNumeric(sheet.rows)
    ensures multiset(SortDesc(sheet.rows)) == multiset(sheet.rows)
    ensures SortedDesc(Processed(sheet, ParetoId).rows)
    ensures forall v :: WithKey(SortDesc(sheet.rows), v) == WithKey(sheet.rows, v)
    ensures SameOffColumn(Processed(sheet, ParetoId).rows, SortDesc(sheet.rows), CumulativeCol)
  {
    forall v
      ensures WithKey(SortDesc(sheet.rows), v) == WithKey(sheet.rows, v)
    {
      SortDescStable(sheet.rows, v);
    }
    var s := SortDesc(sheet.rows);
    var r := Annotated(s);
    forall i | 0 <= i < |r|
      ensures Key(r[i]) == Key(s[i])
      ensures SetCell(r[i], CumulativeCol, Missing) == SetCell(s[i], CumulativeCol, Missing)
    {
      SetCellTwice(s[i], CumulativeCol, Share(Total(s[..i + 1]), Total(s)), Missing);
      assert Get(r[i], FrequencyCol) == Get(s[i], FrequencyCol);
    }
  }

  /** Any tool other than FMEA and Pareto gets its sheet back unchanged. */
  lemma OtherToolsUnchanged(sheet: Sheet, id: string)
    requires id != FmeaId && id != ParetoId
    ensures Processed(sheet, id) == sheet
  {
  }

  /** Recomputing a freshly computed sheet changes nothing. */
  lemma ProcessedIdempotent(sheet: Sheet, id: string)
    requires id == ParetoId ==> KeysNumeric(sheet.rows)
    ensures id == ParetoId ==> KeysNumeric(Processed(sheet, id).rows)
    ensures Processed(Processed(sheet, id), id) == Processed(sheet, id)
  {
    if id == FmeaId {
      var r := FmeaRows(sheet.rows);
      forall i | 0 <= i < |r|
        ensures FmeaRow(r[i]) == r[i]
      {
        FmeaRowIdempotent(sheet.rows[i]);
      }
    } else if id == ParetoId {
      var s := SortDesc(sheet.rows);
      var r := Annotated(s);
      ParetoReorders(sheet);
      assert KeysNumeric(r) by {
        forall i | 0 <= i < |r|
          ensures ToNumber(Get(r[i], FrequencyCol)).Some?
        {
          assert s[i] in multiset(sheet.rows);
          var j :| 0 <= j < |sheet.rows| && sheet.rows[j] == s[i];
          assert Get(r[i], FrequencyCol) == Get(s[i], FrequencyCol);
        }
      }
      SortDescOfSorted(r);
      assert SameOffColumn(r, s, CumulativeCol);
      AnnotatedOffColumn(r, s);
    }
  }

  /* ---------------- Read-only columns and edits ---------------- */

  /** The derived columns cannot be typed into. */
  predicate IsReadOnly(id: string, col: nat): (ro: bool)
    ensures id != FmeaId && id != ParetoId ==> !ro
    ensures id == FmeaId ==> (ro <==> col == RpnCol)
    ensures id == ParetoId ==> (ro <==> col == CumulativeCol)
  {
    (id == FmeaId && col == RpnCol) || (id == ParetoId && col == CumulativeCol)
  }

  /** `newRows[r][c] = value`: one cell replaced, everything else kept. */
  function EditCell(rows: seq<Row>, r: nat, c: nat, v: Cell): (e: seq<Row>)
    requires r < |rows| && c < |rows[r]|
    ensures |e| == |rows|
    ensures |e[r]| == |rows[r]| && e[r][c] == v
    ensures forall k :: 0 <= k < |rows[r]| && k != c ==> e[r][k] == rows[r][k]
    ensures forall i :: 0 <= i < |rows| && i != r ==> e[i] == rows[i]
  {
    rows[r := rows[r][c := v]]
  }

  /** A value written into a read-only cell is overwritten by the
      recomputation: the result is as if the edit never happened. */
  lemma ReadOnlyEditOverwritten(sheet: Sheet, id: string, r: nat, c: nat, v: Cell)
    requires r < |sheet.rows| && c < |sheet.rows[r]|
    requires IsReadOnly(id, c)
    requires id == ParetoId ==> KeysNumeric(sheet.rows)
    ensures id == ParetoId ==> KeysNumeric(EditCell(sheet.rows, r, c, v))
    ensures Processed(sheet.(rows := EditCell(sheet.rows, r, c, v)), id) == Processed(sheet, id)
  {
    var e := EditCell(sheet.rows, r, c, v);
    if id == FmeaId {
      FmeaRowIgnoresRpn(sheet.rows[r], v);
      assert FmeaRows(e) == FmeaRows(sheet.rows);
    } else {
      assert SetCell(e[r], CumulativeCol, Missing) == SetCell(sheet.rows[r], CumulativeCol, Missing);
      assert SameOffColumn(e, sheet.rows, CumulativeCol);
      assert Get(e[r], FrequencyCol) == Get(sheet.rows[r], FrequencyCol);
      ParetoIgnoresCumulative(e, sheet.rows);
    }
  }

  /* ---------------- Templates ---------------- */

  function Texts(s: seq<string>): (r: Row)
    ensures |r| == |s|
    ensures forall i :: 0 <= i < |s| ==> r[i] == Text(s[i])
  {
    seq(|s|, i requires 0 <= i < |s| => Text(s[i]))
  }

  const FmeaTemplate: Sheet := Sheet(
    ["Processo/Item", "Modo de Falha", "Efeito", "Severidade (S)", "Ocorrência (O)", "Detecção (D)", "RPN", "Ação Corretiva"],
    [ [Text("Injeção Plástica"), Text("Rebarba excessiva"), Text("Refugo de peça"), Num(7.0), Num(4.0), Num(3.0), Num(0.0), Text("Ajustar pressão molde")],
      [Text("Estamparia"), Text("Trinca em dobra"), Text("Comprometimento estrutural"), Num(9.0), Num(2.0), Num(2.0), Num(0.0), Text("Revisar lubrificação")] ])

  const ParetoTemplate: Sheet := Sheet(
    ["Tipo de Defeito", "Frequência", "Cumulativo %"],
    [ [Text("Riscos superficiais"), Num(120.0), Num(0.0)],
      [Text("Dimensional fora"), Num(45.0), Num(0.0)],
      [Text("Manchas de pintura"), Num(12.0), Num(0.0)],
      [Text("Outros"), Num(5.0), Num(0.0)] ])

  const SwotTemplate: Sheet := Sheet(
    ["Categoria", "Descrição", "Impacto"],
    [ Texts(["Força", "Tecnologia Japonesa proprietária", "Alto"]),
      Texts(["Fraqueza", "Tempo de setup elevado", "Médio"]),
      Texts(["Oportunidade", "Expansão linha branca regional", "Alto"]),
      Texts(["Ameaça", "Variação custo matéria-prima", "Médio"]) ])

  const FiveSTemplate: Sheet := Sheet(
    ["Senso", "Descrição da Auditoria", "Status", "Nota (1-5)"],
    [ Texts(["Seiri (Seleção)", "Apenas ferramentas necessárias no posto?", "Em Conformidade"]) + [Num(5.0)],
      Texts(["Seiton (Ordenação)", "Layout segue o padrão FIT visual?", "Parcial"]) + [Num(3.0)],
      Texts(["Seiso (Limpeza)", "Piso e bancada isentos de óleo/poeira?", "Não Conforme"]) + [Num(1.0)] ])

  /** The sheet used for a tool with no template. */
  const DefaultSheet: Sheet := Sheet(["COL 1", "COL 2"], [Texts(["Data 1", "Data 2"])])

  /** `TOOL_TEMPLATES[id]`. */
  function Template(id: string): (t: Option<Sheet>)
    ensures t.Some? <==> id == FmeaId || id == ParetoId || id == "swot-dashboard" || id == "5s-dashboard"
    ensures t.Some? ==> forall i :: 0 <= i < |t.value.rows| ==> |t.value.rows[i]| == |t.value.headers|
  {
    if id == FmeaId then Some(FmeaTemplate)
    else if id == ParetoId then Some(ParetoTemplate)
    else if id == "swot-dashboard" then Some(SwotTemplate)
    else if id == "5s-dashboard" then Some(FiveSTemplate)
    else None
  }

  /** The sheet a tool starts from when nothing is stored for it. */
  function InitialSheet(id: string): (s: Sheet)
    ensures id == ParetoId ==> KeysNumeric(s.rows)
    ensures Template(id).Some? ==> s == Template(id).value
    ensures Template(id).None? ==> s == DefaultSheet
  {
    if Template(id).Some? then Template(id).value else DefaultSheet
  }

  /** The FMEA template's RPNs: 7 x 4 x 3 = 84 and 9 x 2 x 2 = 36. */
  lemma FmeaTemplateRpn()
    ensures Get(Processed(FmeaTemplate, FmeaId).rows[0], RpnCol) == Num(84.0)
    ensures Get(Processed(FmeaTemplate, FmeaId).rows[1], RpnCol) == Num(36.0)
  {
    FmeaRpn(FmeaTemplate.rows, 0);
    FmeaRpn(FmeaTemplate.rows, 1);
  }

  /** The Pareto template is already in order of frequency, so processing
      it only annotates it. */
  lemma ParetoTemplateSorted()
    ensures Processed(ParetoTemplate, ParetoId).rows == Annotated(ParetoTemplate.rows)
  {
    var rows := ParetoTemplate.rows;
    assert Key(rows[0]) == 120.0 && Key(rows[1]) == 45.0 && Key(rows[2]) == 12.0 && Key(rows[3]) == 5.0;
    SortDescOfSorted(rows);
  }

  /** The Pareto template's cumulative shares are 120/182, 165/182, 177/182
      and 182/182 of 100%. */
  lemma ParetoTemplateShares()
    ensures Total(ParetoTemplate.rows) == 182.0
    ensures Get(Annotated(ParetoTemplate.rows)[0], CumulativeCol) == Percent(120.0, 182.0)
    ensures Get(Annotated(ParetoTemplate.rows)[1], CumulativeCol) == Percent(165.0, 182.0)
    ensures Get(Annotated(ParetoTemplate.rows)[2], CumulativeCol) == Percent(177.0, 182.0)
    ensures Get(Annotated(ParetoTemplate.rows)[3], CumulativeCol) == Percent(182.0, 182.0)
  {
    var rows := ParetoTemplate.rows;
    assert Key(rows[0]) == 120.0 && Key(rows[1]) == 45.0 && Key(rows[2]) == 12.0 && Key(rows[3]) == 5.0;
    assert rows[..1][..0] == [];
    assert rows[..2][..1] == rows[..1];
    assert rows[..3][..2] == rows[..2];
    assert rows[..4][..3] == rows[..3];
    assert rows[..4] == rows;
    assert Total(rows[..1]) == 120.0;
    assert Total(rows[..2]) == 165.0;
    assert Total(rows[..3]) == 177.0;
    assert Total(rows) == 182.0;
    ParetoShare(rows, 0);
    ParetoShare(rows, 1);
    ParetoShare(rows, 2);
    ParetoLastIsHundred(rows);
  }

  /* ---------------- The viewer's state ---------------- */

  /** `EQPS_DATA_<id>`, the storage key of a tool's sheet. */
  function DataKey(id: string): string
  {
    "EQPS_DATA_" + id
  }

  /** A blank row as wide as the header: `headers.length` empty strings. */
  function BlankRow(width: nat): (r: Row)
    ensures |r| == width && forall i :: 0 <= i < width ==> r[i] == Text("")
  {
    seq(width, _ => Text(""))
  }

  /** One open dashboard: the tool it shows, the sheet on screen and the
      sheets held in browser storage. */
  class Viewer {
    const toolId: string
    var data: Sheet
    var storage: map<string, Sheet>

    /** Loading: the stored sheet when there is one; otherwise the tool's
        template (or the two-column default), recomputed and then stored. */
    constructor (toolId: string, storage: map<string, Sheet>)
      ensures this.toolId == toolId
      ensures DataKey(toolId) in storage ==> data == storage[DataKey(toolId)] && this.storage == storage
      ensures DataKey(toolId) !in storage ==>
        data == Processed(InitialSheet(toolId), toolId) && this.storage == storage[DataKey(toolId) := data]
    {
      this.toolId := toolId;
      var key := DataKey(toolId);
      if key in storage {
        data := storage[key];
        this.storage := storage;
      } else {
        var processed := ProcessLogic(InitialSheet(toolId), toolId);
        data := processed;
        this.storage := storage[key := processed];
      }
    }

    /** `handleCellEdit`: the typed text replaces one cell, the sheet is
        recomputed, shown and stored. */
    method HandleCellEdit(rowIndex: nat, colIndex: nat, value: string)
      requires rowIndex < |data.rows| && colIndex < |data.rows[rowIndex]|
      requires toolId == ParetoId ==> KeysNumeric(EditCell(data.rows, rowIndex, colIndex, Text(value)))
      modifies this
      ensures data == Processed(old(data).(rows := EditCell(old(data).rows, rowIndex, colIndex, Text(value))), toolId)
      ensures storage == old(storage)[DataKey(toolId) := data]
    {
      var newRows := EditCell(data.rows, rowIndex, colIndex, Text(value));
      var updated := ProcessLogic(data.(rows := newRows), toolId);
      data := updated;
      storage := storage[DataKey(toolId) := updated];
    }

    /** `addRow`: a blank row is appended; nothing is recomputed or stored. */
    method AddRow()
      modifies this
      ensures data.headers == old(data.headers)
      ensures data.rows == old(data.rows) + [BlankRow(|old(data.headers)|)]
      ensures storage == old(storage)
    {
      data := data.(rows := data.rows + [BlankRow(|data.headers|)]);
    }
  }
}
