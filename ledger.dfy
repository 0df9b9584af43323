/** The ledger merger and renderer shared by the three sync scripts: read the
    previously written ledger, drop its aggregate row, append the incoming
    rows, keep the last row per ID, and append a fresh aggregate row. */
module Ledger {
  import opened Values

  /** Layout of one ledger table: its column labels, the index of the amount
      column, and how many sheet rows precede the label row (`startrow` when
      writing, `skiprows` when reading). */
  datatype Schema = Schema(labels: seq<string>, amount: nat, offset: nat)

  /** Column 0 holds the ID; the amount column is another column of the table. */
  predicate ValidSchema(sc: Schema)
  {
    0 < sc.amount < |sc.labels|
  }

  /** The ID of the aggregate row. */
  const Sentinel: Cell := Text("TOTAL")

  /** Cell `k` of a row; a row read back shorter than the table has empty cells. */
  function CellAt(row: Row, k: nat): Cell
  {
    if k < |row| then row[k] else Null
  }

  function IdOf(row: Row): Cell
  {
    CellAt(row, 0)
  }

  function Ids(rows: seq<Row>): set<Cell>
  {
    set r | r in rows :: IdOf(r)
  }

  predicate UniqueIds(rows: seq<Row>)
  {
    forall i, j :: 0 <= i < j < |rows| ==> IdOf(rows[i]) != IdOf(rows[j])
  }

  lemma IdsAppend(a: seq<Row>, b: seq<Row>)
    ensures Ids(a + b) == Ids(a) + Ids(b)
  {
    assert forall r :: r in a + b <==> r in a || r in b;
  }

  lemma IdsCons(rows: seq<Row>)
    requires rows != []
    ensures Ids(rows) == {IdOf(rows[0])} + Ids(rows[1..])
  {
    assert rows == [rows[0]] + rows[1..];
    IdsAppend([rows[0]], rows[1..]);
  }

  // ---------------------------------------------------------------------
  // Reading an existing ledger

  /** `iloc[:-1]` when the last row's ID is `'TOTAL'`: the aggregate row of
      the previous run is dropped; a last row with any other ID stays as an
      ordinary line row. */
  function StripTotal(rows: seq<Row>): (r: seq<Row>)
    ensures r <= rows && |rows| - 1 <= |r|
    ensures |r| < |rows| <==> |rows| > 0 && IdOf(rows[|rows| - 1]) == Sentinel
  {
    if |rows| > 0 && IdOf(rows[|rows| - 1]) == Sentinel then rows[..|rows| - 1] else rows
  }

  // ---------------------------------------------------------------------
  // drop_duplicates(subset=['ID'], keep='last')

  /** Row `i` is the last row with its ID. */
  predicate LastOccurrence(rows: seq<Row>, i: int)
    requires 0 <= i < |rows|
  {
    forall j :: i < j < |rows| ==> IdOf(rows[j]) != IdOf(rows[i])
  }

  /** The rows that are the last of their ID, at their positions in `rows`. */
  function KeepLast(rows: seq<Row>): (r: seq<Row>)
    ensures Ids(r) == Ids(rows)
    ensures UniqueIds(r)
    ensures forall x :: x in r ==> x in rows
  {
    if rows == [] then []
    else
      IdsCons(rows);
      var rest := KeepLast(rows[1..]);
      if IdOf(rows[0]) in Ids(rows[1..]) then rest
      else
        IdsCons([rows[0]] + rest);
        assert ([rows[0]] + rest)[1..] == rest;
        assert forall j :: 0 <= j < |rest| ==> IdOf(rest[j]) in Ids(rest);
        [rows[0]] + rest
  }

  lemma KeepLastDrop(x: Row, t: seq<Row>)
    requires IdOf(x) in Ids(t)
    ensures KeepLast([x] + t) == KeepLast(t)
  {
    assert ([x] + t)[1..] == t;
  }

  lemma KeepLastKeep(x: Row, t: seq<Row>)
    requires IdOf(x) !in Ids(t)
    ensures KeepLast([x] + t) == [x] + KeepLast(t)
  {
    assert ([x] + t)[1..] == t;
  }

  /** The survivors of `rows` given the survivors of its tail: each is the
      last row with its ID. */
  lemma KeptAreLast(rows: seq<Row>)
    requires rows != []
    requires forall x :: x in KeepLast(rows[1..]) <==>
                         exists i :: 0 <= i < |rows[1..]| && rows[1..][i] == x && LastOccurrence(rows[1..], i)
    ensures forall x :: x in KeepLast(rows) ==> exists i :: 0 <= i < |rows| && rows[i] == x && LastOccurrence(rows, i)
  {
    var t := rows[1..];
    assert rows == [rows[0]] + t;
    forall x | x in KeepLast(rows)
      ensures exists i :: 0 <= i < |rows| && rows[i] == x && LastOccurrence(rows, i)
    {
      if x in KeepLast(t) {
        var i :| 0 <= i < |t| && t[i] == x && LastOccurrence(t, i);
        assert rows[i + 1] == x && LastOccurrence(rows, i + 1);
      } else {
        KeepLastKeep(rows[0], t);
        assert forall j :: 0 < j < |rows| ==> rows[j] in t;
        assert LastOccurrence(rows, 0);
      }
    }
  }

  /** Conversely, the last row with each ID survives. */
  lemma LastAreKept(rows: seq<Row>)
    requires rows != []
    requires forall x :: x in KeepLast(rows[1..]) <==>
                         exists i :: 0 <= i < |rows[1..]| && rows[1..][i] == x && LastOccurrence(rows[1..], i)
    ensures forall x :: (exists i :: 0 <= i < |rows| && rows[i] == x && LastOccurrence(rows, i)) ==> x in KeepLast(rows)
  {
    var t := rows[1..];
    assert rows == [rows[0]] + t;
    forall x | exists i :: 0 <= i < |rows| && rows[i] == x && LastOccurrence(rows, i)
      ensures x in KeepLast(rows)
    {
      var i :| 0 <= i < |rows| && rows[i] == x && LastOccurrence(rows, i);
      if i == 0 {
        forall y | y in t ensures IdOf(y) != IdOf(rows[0]) {
          var j :| 0 <= j < |t| && t[j] == y;
          assert rows[j + 1] == y;
        }
        KeepLastKeep(rows[0], t);
      } else {
        assert t[i - 1] == x && LastOccurrence(t, i - 1);
        if IdOf(rows[0]) in Ids(t) {
          KeepLastDrop(rows[0], t);
        } else {
          KeepLastKeep(rows[0], t);
        }
      }
    }
  }

  /** A row survives exactly when it is the last row with its ID. */
  lemma {:induction false} KeepLastKeeps(rows: seq<Row>)
    ensures forall x :: x in KeepLast(rows) <==>
                        exists i :: 0 <= i < |rows| && rows[i] == x && LastOccurrence(rows, i)
  {
    if rows != [] {
      KeepLastKeeps(rows[1..]);
      KeptAreLast(rows);
      LastAreKept(rows);
    }
  }

  /** The reference behaviour of keep-last deduplication: a dictionary from ID
      to row in which every later row overwrites the earlier ones. */
  function Latest(rows: seq<Row>): (m: map<Cell, Row>)
    ensures m.Keys == Ids(rows)
  {
    if rows == [] then map[]
    else
      var init := rows[..|rows| - 1];
      assert rows == init + [rows[|rows| - 1]];
      IdsAppend(init, [rows[|rows| - 1]]);
      Latest(init)[IdOf(rows[|rows| - 1]) := rows[|rows| - 1]]
  }

  lemma {:induction false} LatestAt(rows: seq<Row>, i: int)
    requires 0 <= i < |rows| && LastOccurrence(rows, i)
    ensures Latest(rows)[IdOf(rows[i])] == rows[i]
  {
    if i < |rows| - 1 {
      var init := rows[..|rows| - 1];
      assert LastOccurrence(init, i);
      LatestAt(init, i);
    }
  }

  /** KeepLast yields one row per ID of the input, each the row the
      dictionary holds for that ID. */
  lemma KeepLastIsDictionary(rows: seq<Row>)
    ensures forall x :: x in KeepLast(rows) ==> Latest(rows)[IdOf(x)] == x
    ensures forall d :: d in Latest(rows) <==> exists x :: x in KeepLast(rows) && IdOf(x) == d
  {
    KeepLastKeeps(rows);
    forall x | x in KeepLast(rows) ensures Latest(rows)[IdOf(x)] == x {
      var i :| 0 <= i < |rows| && rows[i] == x && LastOccurrence(rows, i);
      LatestAt(rows, i);
    }
  }

  /** The rows whose ID is not in `ids`, in order. */
  function Without(rows: seq<Row>, ids: set<Cell>): (r: seq<Row>)
    ensures forall x :: x in r <==> x in rows && IdOf(x) !in ids
  {
    if rows == [] then []
    else (if IdOf(rows[0]) in ids then [] else [rows[0]]) + Without(rows[1..], ids)
  }

  lemma {:induction false} WithoutAppend(a: seq<Row>, b: seq<Row>, ids: set<Cell>)
    ensures Without(a + b, ids) == Without(a, ids) + Without(b, ids)
  {
    if a == [] {
      assert a + b == b;
    } else {
      assert (a + b)[0] == a[0] && (a + b)[1..] == a[1..] + b;
      WithoutAppend(a[1..], b, ids);
    }
  }

  lemma {:induction false} WithoutIdempotent(a: seq<Row>, ids: set<Cell>)
    ensures Without(Without(a, ids), ids) == Without(a, ids)
  {
    if a != [] {
      WithoutIdempotent(a[1..], ids);
      var h := if IdOf(a[0]) in ids then [] else [a[0]];
      WithoutAppend(h, Without(a[1..], ids), ids);
    }
  }

  lemma WithoutCons(x: Row, t: seq<Row>, ids: set<Cell>)
    ensures Without([x] + t, ids) == if IdOf(x) in ids then Without(t, ids) else [x] + Without(t, ids)
  {
    assert ([x] + t)[0] == x && ([x] + t)[1..] == t;
  }

  lemma ConsAssoc(x: Row, a: seq<Row>, b: seq<Row>)
    ensures ([x] + a) + b == [x] + (a + b)
  {
  }

  /** The ordering behind keep-last over a concatenation: the survivors of
      the first part whose ID the second part does not carry, in order,
      followed by the survivors of the second part. */
  lemma {:induction false} KeepLastAppend(xs: seq<Row>, ys: seq<Row>)
    ensures KeepLast(xs + ys) == Without(KeepLast(xs), Ids(ys)) + KeepLast(ys)
  {
    if xs == [] {
      assert xs + ys == ys;
    } else {
      var x, xt := xs[0], xs[1..];
      assert xs == [x] + xt && xs + ys == [x] + (xt + ys);
      KeepLastAppend(xt, ys);
      IdsAppend(xt, ys);
      if IdOf(x) in Ids(xt) {
        KeepLastDrop(x, xt);
        KeepLastDrop(x, xt + ys);
      } else if IdOf(x) in Ids(ys) {
        KeepLastKeep(x, xt);
        KeepLastDrop(x, xt + ys);
        WithoutCons(x, KeepLast(xt), Ids(ys));
      } else {
        KeepLastKeep(x, xt);
        KeepLastKeep(x, xt + ys);
        WithoutCons(x, KeepLast(xt), Ids(ys));
        ConsAssoc(x, Without(KeepLast(xt), Ids(ys)), KeepLast(ys));
      }
    }
  }

  lemma {:induction false} KeepLastOfUnique(rows: seq<Row>)
    requires UniqueIds(rows)
    ensures KeepLast(rows) == rows
  {
    if rows != [] {
      var t := rows[1..];
      assert UniqueIds(t) by {
        forall i, j | 0 <= i < j < |t| ensures IdOf(t[i]) != IdOf(t[j]) {
          assert t[i] == rows[i + 1] && t[j] == rows[j + 1];
        }
      }
      KeepLastOfUnique(t);
      forall y | y in t ensures IdOf(y) != IdOf(rows[0]) {
        var j :| 0 <= j < |t| && t[j] == y;
        assert rows[j + 1] == y;
      }
    }
  }

  lemma {:induction false} WithoutAll(rows: seq<Row>, ids: set<Cell>)
    requires Ids(rows) <= ids
    ensures Without(rows, ids) == []
  {
    if rows != [] {
      IdsCons(rows);
      WithoutAll(rows[1..], ids);
    }
  }

  // ---------------------------------------------------------------------
  // The merge

  /** The line rows of the new ledger. With no readable existing ledger the
      incoming rows are used as they are; otherwise the existing line rows
      come first and the incoming rows after them, and the last row of every
      ID survives. */
  function MergeLines(existing: Option<seq<Row>>, incoming: seq<Row>): (lines: seq<Row>)
    ensures existing.None? ==> lines == incoming
    ensures existing.Some? ==>
              UniqueIds(lines) && Ids(lines) == Ids(StripTotal(existing.value)) + Ids(incoming)
    ensures forall x :: x in lines ==> x in incoming || (existing.Some? && x in StripTotal(existing.value))
  {
    match existing
    case None => incoming
    case Some(e) =>
      IdsAppend(StripTotal(e), incoming);
      KeepLast(StripTotal(e) + incoming)
  }

  /** Keep-last-wins: the last incoming row of an ID is in the merged
      ledger, and it is the only row with that ID there. */
  lemma IncomingWins(existing: seq<Row>, incoming: seq<Row>, i: int)
    requires 0 <= i < |incoming| && LastOccurrence(incoming, i)
    ensures incoming[i] in MergeLines(Some(existing), incoming)
    ensures forall x :: x in MergeLines(Some(existing), incoming) && IdOf(x) == IdOf(incoming[i]) ==> x == incoming[i]
  {
    var lines := MergeLines(Some(existing), incoming);
    KeepLastAppend(StripTotal(existing), incoming);
    KeepLastKeeps(incoming);
    assert incoming[i] in KeepLast(incoming);
    assert incoming[i] in lines;
    forall x | x in lines && IdOf(x) == IdOf(incoming[i]) ensures x == incoming[i] {
      var a :| 0 <= a < |lines| && lines[a] == x;
      var b :| 0 <= b < |lines| && lines[b] == incoming[i];
      assert a == b;
    }
  }

  /** An existing line row whose ID no incoming row carries is kept. */
  lemma ExistingSurvives(existing: seq<Row>, incoming: seq<Row>, i: int)
    requires 0 <= i < |StripTotal(existing)| && LastOccurrence(StripTotal(existing), i)
    requires IdOf(StripTotal(existing)[i]) !in Ids(incoming)
    ensures StripTotal(existing)[i] in MergeLines(Some(existing), incoming)
  {
    var e := StripTotal(existing);
    KeepLastAppend(e, incoming);
    KeepLastKeeps(e);
    assert e[i] in KeepLast(e);
    assert e[i] in Without(KeepLast(e), Ids(incoming));
  }

  // ---------------------------------------------------------------------
  // The aggregate row

  /** What a cell adds to a sum; pandas skips empty cells. */
  function AmountValue(c: Cell): int
  {
    match c
    case Amount(n) => n
    case _ => 0
  }

  /** The sum of column `col` over `rows`. */
  function Sum(rows: seq<Row>, col: nat): int
  {
    if rows == [] then 0 else AmountValue(CellAt(rows[0], col)) + Sum(rows[1..], col)
  }

  lemma {:induction false} SumAppend(a: seq<Row>, b: seq<Row>, col: nat)
    ensures Sum(a + b, col) == Sum(a, col) + Sum(b, col)
  {
    if a == [] {
      assert a + b == b;
    } else {
      assert (a + b)[0] == a[0] && (a + b)[1..] == a[1..] + b;
      SumAppend(a[1..], b, col);
    }
  }

  /** The sum does not depend on the order of the rows. */
  lemma {:induction false} SumPermutation(a: seq<Row>, b: seq<Row>, col: nat)
    requires multiset(a) == multiset(b)
    ensures Sum(a, col) == Sum(b, col)
  {
    if a == [] {
      assert |b| == |multiset(b)| == 0;
    } else {
      assert a[0] in multiset(b);
      var j :| 0 <= j < |b| && b[j] == a[0];
      var rest := b[..j] + b[j + 1..];
      RemoveAt(b, j);
      assert a == [a[0]] + a[1..];
      assert multiset(a[1..]) == multiset(a) - multiset{a[0]};
      SumPermutation(a[1..], rest, col);
      SumRemove(b, j, col);
    }
  }

  lemma RemoveAt(b: seq<Row>, j: int)
    requires 0 <= j < |b|
    ensures multiset(b[..j] + b[j + 1..]) == multiset(b) - multiset{b[j]}
  {
    assert b == b[..j] + [b[j]] + b[j + 1..];
  }

  lemma SumRemove(b: seq<Row>, j: int, col: nat)
    requires 0 <= j < |b|
    ensures Sum(b, col) == AmountValue(CellAt(b[j], col)) + Sum(b[..j] + b[j + 1..], col)
  {
    assert b == b[..j] + ([b[j]] + b[j + 1..]);
    SumAppend(b[..j], [b[j]] + b[j + 1..], col);
    SumAppend(b[..j], b[j + 1..], col);
    assert ([b[j]] + b[j + 1..])[1..] == b[j + 1..];
  }

  /** The aggregate row: ID `'TOTAL'`, the amount column holding the sum of
      the line rows, every other column `''`. */
  function TotalRow(sc: Schema, lines: seq<Row>): (t: Row)
    requires ValidSchema(sc)
    ensures |t| == |sc.labels|
    ensures IdOf(t) == Sentinel
    ensures t[sc.amount] == Amount(Sum(lines, sc.amount))
    ensures forall k :: 0 < k < |t| && k != sc.amount ==> t[k] == Text("")
  {
    seq(|sc.labels|, k requires 0 <= k < |sc.labels| =>
      if k == 0 then Sentinel else if k == sc.amount then Amount(Sum(lines, sc.amount)) else Text(""))
  }

  /** The ledger one run writes: the merged line rows followed by exactly one
      aggregate row, which carries the sum of all rows before it and is the
      part StripTotal removes again. */
  function Reconcile(sc: Schema, existing: Option<seq<Row>>, incoming: seq<Row>): (ledger: seq<Row>)
    requires ValidSchema(sc)
    ensures |ledger| > 0
    ensures IdOf(ledger[|ledger| - 1]) == Sentinel
    ensures CellAt(ledger[|ledger| - 1], sc.amount) == Amount(Sum(ledger[..|ledger| - 1], sc.amount))
    ensures ledger[|ledger| - 1] == TotalRow(sc, ledger[..|ledger| - 1])
    ensures StripTotal(ledger) == ledger[..|ledger| - 1] == MergeLines(existing, incoming)
  {
    var lines := MergeLines(existing, incoming);
    var ledger := lines + [TotalRow(sc, lines)];
    assert ledger[..|ledger| - 1] == lines;
    ledger
  }

  // ---------------------------------------------------------------------
  // Rendering and parsing the sheet

  /** The column-label row `to_excel` writes above the table. */
  function LabelRow(sc: Schema): (r: Row)
    ensures |r| == |sc.labels|
  {
    seq(|sc.labels|, k requires 0 <= k < |sc.labels| => Text(sc.labels[k]))
  }

  /** The sheet of a ledger: the header block from row 0, empty rows up to
      the offset, the label row at the offset and the ledger below it. */
  function Render(sc: Schema, header: seq<Row>, ledger: seq<Row>): (sheet: seq<Row>)
    requires |header| <= sc.offset
    ensures |sheet| == sc.offset + 1 + |ledger|
    ensures sheet[..|header|] == header
    ensures sheet[sc.offset] == LabelRow(sc)
  {
    header + seq(sc.offset - |header|, _ => []) + [LabelRow(sc)] + ledger
  }

  /** `read_excel(skiprows=offset)`: the row at the offset becomes the label
      row, and the table is every row below it, in order. */
  function Parse(sc: Schema, sheet: seq<Row>): (table: seq<Row>)
    ensures |sheet| <= sc.offset + 1 ==> table == []
    ensures |sheet| > sc.offset ==> |table| == |sheet| - sc.offset - 1 && sheet == sheet[..sc.offset + 1] + table
  {
    if |sheet| > sc.offset then sheet[sc.offset + 1..] else []
  }

  /** The label every merging script looks the ID up by. */
  const IdLabel: string := "ID"

  /** The table read from a sheet has at least one row, and its label row has
      no `ID` column: the `['ID']` lookup on its last row raises. */
  predicate UnkeyedTable(sc: Schema, sheet: seq<Row>)
  {
    |sheet| > sc.offset + 1 && Text(IdLabel) !in sheet[sc.offset]
  }

  /** The existing ledger at a path: None when no file is there, when the file
      cannot be read as a sheet, or when its table has rows but no `ID`
      column. In each case the merge is abandoned and starts from nothing. */
  function ReadLedger(sc: Schema, file: Option<Blob>): (r: Option<seq<Row>>)
    ensures r.Some? <==> file.Some? && file.value.Sheet? && !UnkeyedTable(sc, file.value.rows)
    ensures r.Some? ==> r.value == Parse(sc, file.value.rows)
  {
    match file
    case Some(Sheet(rows)) => if UnkeyedTable(sc, rows) then None else Some(Parse(sc, rows))
    case _ => None
  }

  /** A rendered sheet carries the label row at the offset, so when the table
      has an `ID` label the sheet is read back as a ledger. */
  lemma RenderedKeyed(sc: Schema, header: seq<Row>, ledger: seq<Row>)
    requires |header| <= sc.offset && IdLabel in sc.labels
    ensures ReadLedger(sc, Some(Sheet(Render(sc, header, ledger)))) == Some(Parse(sc, Render(sc, header, ledger)))
  {
    var k :| 0 <= k < |sc.labels| && sc.labels[k] == IdLabel;
    assert LabelRow(sc)[k] == Text(IdLabel);
  }

  /** Writing and reading use the same offset, so parsing a rendered sheet
      gives back the ledger, and stripping its aggregate row the line rows. */
  lemma RenderParse(sc: Schema, header: seq<Row>, existing: Option<seq<Row>>, incoming: seq<Row>)
    requires ValidSchema(sc) && |header| <= sc.offset
    ensures var ledger := Reconcile(sc, existing, incoming);
            Parse(sc, Render(sc, header, ledger)) == ledger &&
            StripTotal(Parse(sc, Render(sc, header, ledger))) == MergeLines(existing, incoming)
  {
    var ledger := Reconcile(sc, existing, incoming);
    var sheet := Render(sc, header, ledger);
    assert sheet == (header + seq(sc.offset - |header|, _ => []) + [LabelRow(sc)]) + ledger;
  }

  /** Merging the same incoming batch again against the ledger it produced
      gives the same ledger: the same line rows and the same total. On a first
      run (no readable ledger) this needs the batch's IDs to be unique, since
      that run does not deduplicate. */
  lemma ReconcileIdempotent(sc: Schema, header: seq<Row>, existing: Option<seq<Row>>, incoming: seq<Row>)
    requires ValidSchema(sc) && |header| <= sc.offset && IdLabel in sc.labels
    requires existing.Some? || UniqueIds(incoming)
    ensures var ledger := Reconcile(sc, existing, incoming);
            Reconcile(sc, ReadLedger(sc, Some(Sheet(Render(sc, header, ledger)))), incoming) == ledger
  {
    var ledger := Reconcile(sc, existing, incoming);
    var lines := MergeLines(existing, incoming);
    RenderParse(sc, header, existing, incoming);
    RenderedKeyed(sc, header, ledger);
    assert ReadLedger(sc, Some(Sheet(Render(sc, header, ledger)))) == Some(ledger);
    var again := MergeLines(Some(ledger), incoming);
    assert again == KeepLast(lines + incoming);
    MergeAgain(existing, incoming);
    assert again == lines;
  }

  lemma MergeAgain(existing: Option<seq<Row>>, incoming: seq<Row>)
    requires existing.Some? || UniqueIds(incoming)
    ensures var lines := MergeLines(existing, incoming);
            KeepLast(lines + incoming) == lines
  {
    match existing
    case None => FirstMergeAgain(incoming);
    case Some(e) => LaterMergeAgain(StripTotal(e), incoming);
  }

  lemma FirstMergeAgain(incoming: seq<Row>)
    requires UniqueIds(incoming)
    ensures KeepLast(incoming + incoming) == incoming
  {
    KeepLastAppend(incoming, incoming);
    KeepLastOfUnique(incoming);
    WithoutAll(incoming, Ids(incoming));
    assert [] + incoming == incoming;
  }

  lemma LaterMergeAgain(s: seq<Row>, incoming: seq<Row>)
    ensures KeepLast(KeepLast(s + incoming) + incoming) == KeepLast(s + incoming)
  {
    var ids := Ids(incoming);
    var kin := KeepLast(incoming);
    var lines := KeepLast(s + incoming);
    var w := Without(KeepLast(s), ids);
    KeepLastAppend(s, incoming);
    assert lines == w + kin;
    KeepLastAppend(lines, incoming);
    KeepLastOfUnique(lines);
    WithoutAppend(w, kin, ids);
    WithoutIdempotent(KeepLast(s), ids);
    WithoutAll(kin, ids);
    assert Without(lines, ids) == w;
  }
}
