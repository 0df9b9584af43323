/** The four ledger layouts: which source fields become which columns, the
    fixed empty columns, the amount column, the header block above the table
    and the row the table starts at. */
module Schemas {
  import opened Values
  import opened Naming
  import opened Ledger

  /** Where a ledger column's cells come from: a source field, or the
      constant `''` of an inserted column. */
  datatype Column = Source(field: string) | Blank

  function MapCell(c: Column, r: Record): Cell
  {
    match c
    case Source(f) => Field(r, f)
    case Blank => Text("")
  }

  function MapRow(cols: seq<Column>, r: Record): (row: Row)
    ensures |row| == |cols|
    ensures forall k {:trigger row[k]} :: 0 <= k < |cols| ==> row[k] == MapCell(cols[k], r)
  {
    seq(|cols|, k requires 0 <= k < |cols| => MapCell(cols[k], r))
  }

  /** The line rows of one group, in the group's order. */
  function Rows(cols: seq<Column>, group: seq<Record>): (rows: seq<Row>)
    ensures |rows| == |group|
    ensures forall i {:trigger rows[i]} :: 0 <= i < |group| ==> rows[i] == MapRow(cols, group[i])
  {
    if group == [] then [] else [MapRow(cols, group[0])] + Rows(cols, group[1..])
  }

  /** The columns of the DataFrame built from `records`. */
  function Columns(records: seq<Record>): (cs: set<string>)
    ensures forall name :: name in cs <==> HasColumn(records, name)
  {
    set r, f | r in records && f in r.fields :: f
  }

  /** `group[[...]]` raises KeyError unless every selected field is a column
      of the frame. */
  predicate Selectable(records: seq<Record>, cols: seq<Column>)
  {
    forall k :: 0 <= k < |cols| && cols[k].Source? ==> HasColumn(records, cols[k].field)
  }

  /** The sum of a source field over a group, before any mapping. */
  function FieldTotal(group: seq<Record>, f: string): int
  {
    if group == [] then 0 else AmountValue(Field(group[0], f)) + FieldTotal(group[1..], f)
  }

  /** The amount column of the mapped rows adds up to the same total as the
      source field it is taken from. */
  lemma {:induction false} MappedSum(cols: seq<Column>, group: seq<Record>, k: nat, f: string)
    requires k < |cols| && cols[k] == Source(f)
    ensures Sum(Rows(cols, group), k) == FieldTotal(group, f)
  {
    if group != [] {
      MappedSum(cols, group[1..], k, f);
      assert Rows(cols, group)[1..] == Rows(cols, group[1..]);
    }
  }

  /** The IDs of the mapped rows are the source `id` values of the group. */
  lemma MappedIds(cols: seq<Column>, group: seq<Record>)
    requires 0 < |cols| && cols[0] == Source("id")
    ensures Ids(Rows(cols, group)) == set r | r in group :: Field(r, "id")
  {
    var rows := Rows(cols, group);
    forall d | d in Ids(rows) ensures d in set r | r in group :: Field(r, "id") {
      var x :| x in rows && IdOf(x) == d;
      var i :| 0 <= i < |rows| && rows[i] == x;
      assert x == MapRow(cols, group[i]);
    }
    forall d | d in set r | r in group :: Field(r, "id") ensures d in Ids(rows) {
      var x :| x in group && Field(x, "id") == d;
      var i :| 0 <= i < |group| && group[i] == x;
      assert IdOf(rows[i]) == d;
    }
  }

  // ---------------------------------------------------------------------
  // Purchases (card statements)

  const PurchaseLabels: seq<string> :=
    ["ID", "Beleg", "Rechnungssteller", "Text", "Kontierung Konto", "KST", "Projekt", "VAT", "BETRAG CHF", "BETRAG EUR"]

  const PurchaseColumns: seq<Column> :=
    [Source("id"), Blank, Source("invoiceIssuer"), Source("itemName"), Source("account"), Source("kst"),
     Source("project"), Source("vatRate"), Source("price"), Blank]

  /** Ten columns, the amount in `BETRAG CHF`, the table at row 9. */
  const Purchases: Schema := Schema(PurchaseLabels, 8, 9)

  /** A purchase line: ID first, `Beleg` inserted empty after it, the price in
      the amount column and `BETRAG EUR` empty at the end. */
  function PurchaseRow(r: Record): (row: Row)
    ensures ValidSchema(Purchases) && |row| == |Purchases.labels| == 10
    ensures IdOf(row) == Field(r, "id")
    ensures row[1] == Text("") && row[9] == Text("")
    ensures row[2] == Field(r, "invoiceIssuer") && row[3] == Field(r, "itemName")
    ensures row[4] == Field(r, "account") && row[5] == Field(r, "kst") && row[6] == Field(r, "project") &&
            row[7] == Field(r, "vatRate")
    ensures CellAt(row, Purchases.amount) == Field(r, "price")
  {
    MapRow(PurchaseColumns, r)
  }

  /** The five header lines above a card statement. */
  function PurchasesHeader(card: string, period: string): (h: seq<Row>)
    ensures |h| == 5 && |h| < Purchases.offset
    ensures h[0] == [Text("Kreditkarten-Abrechnung")]
    ensures h[1] == [Text("Anbieter: " + card)] && h[2] == [Text("Periode: " + HumanPeriod(period))]
    ensures h[3] == [Text("Lenzerheide Marketing+Support AG")] && h[4] == [Text("GJ 2024/25")]
  {
    [[Text("Kreditkarten-Abrechnung")],
     [Text("Anbieter: " + card)],
     [Text("Periode: " + HumanPeriod(period))],
     [Text("Lenzerheide Marketing+Support AG")],
     [Text("GJ 2024/25")]]
  }

  // ---------------------------------------------------------------------
  // Expense claims

  const ExpenseLabels: seq<string> :=
    ["ID", "Datum", "Ereignis", "Text", "Betrag inkl. MwSt", "Konto", "Kostenstelle", "Projekt"]

  const ExpenseColumns: seq<Column> :=
    [Source("id"), Source("date"), Source("description"), Source("description"), Source("amount"),
     Source("account"), Source("kst"), Source("project")]

  /** Eight columns, the amount in `Betrag inkl. MwSt`, the table at row 7. */
  const Expenses: Schema := Schema(ExpenseLabels, 4, 7)

  /** An expense line: the description appears twice, as `Ereignis` and as `Text`. */
  function ExpenseRow(r: Record): (row: Row)
    ensures ValidSchema(Expenses) && |row| == |Expenses.labels| == 8
    ensures IdOf(row) == Field(r, "id") && row[1] == Field(r, "date")
    ensures row[2] == row[3] == Field(r, "description")
    ensures row[5] == Field(r, "account") && row[6] == Field(r, "kst") && row[7] == Field(r, "project")
    ensures CellAt(row, Expenses.amount) == Field(r, "amount")
  {
    MapRow(ExpenseColumns, r)
  }

  /** The value shown after `Bank:` and `IBAN:`: the group's first value of
      the column when the frame has the column and some row of the group has
      a value there, `'N/A'` otherwise (so for an empty group). The first
      row's value is shown even when it is itself empty. */
  function HeaderValue(frame: seq<Record>, group: seq<Record>, name: string): (v: string)
    ensures !HasColumn(frame, name) ==> v == "N/A"
    ensures (forall r :: r in group ==> Field(r, name) == Null) ==> v == "N/A"
    ensures HasColumn(frame, name) && (exists r :: r in group && Field(r, name) != Null) ==>
              v == CellText(Field(group[0], name))
  {
    if name in Columns(frame) && exists r :: r in group && Field(r, name) != Null then
      CellText(Field(group[0], name))
    else "N/A"
  }

  /** A group whose first row has no bank name but whose second row has one
      shows `nan`, not the second row's bank. */
  lemma HeaderShowsEmptyFirstValue()
    ensures var first := Record(map[], map[]);
            var second := Record(map["bankName" := Text("UBS")], map[]);
            HeaderValue([first, second], [first, second], "bankName") == "nan"
  {
    var second := Record(map["bankName" := Text("UBS")], map[]);
    assert "bankName" in second.fields;
  }

  /** The submission note in the second header line of an expense claim. */
  const ClaimNotice: string :=
    "Max. ein Formular pro Monat pro Mitarbeitende:r. Formular als XLS mit eingescannten Belegen als PDF an kreditoren.lms@lenzerheide.swiss senden"

  /** The six header lines above an expense claim. */
  function ExpensesHeader(employee: string, period: string, bank: string, iban: string): (h: seq<Row>)
    ensures |h| == 6 && |h| < Expenses.offset
    ensures h[0] == [Text("Kostenabrechnung")] && h[1] == [Text(ClaimNotice)]
    ensures h[3] == [Text("Mitarbeiter: " + employee), Text(""), Text(""), Text("Monat/Jahr: " + period)]
    ensures h[4] == [Text("Bank: " + bank)]
    ensures h[5] == [Text("IBAN: " + iban), Text(""), Text(""), Text("Konto lautet auf: " + employee)]
  {
    [[Text("Kostenabrechnung")],
     [Text(ClaimNotice)],
     [Text("")],
     [Text("Mitarbeiter: " + employee), Text(""), Text(""), Text("Monat/Jahr: " + period)],
     [Text("Bank: " + bank)],
     [Text("IBAN: " + iban), Text(""), Text(""), Text("Konto lautet auf: " + employee)]]
  }

  // ---------------------------------------------------------------------
  // Campaigns

  const CampaignLabels: seq<string> :=
    ["ID", "Mitarbeiter", "Kampagnenname", "Startdatum", "Enddatum", "Werbebudget (CHF)", "Konto",
     "Kostenstelle", "Projekt", "Meta-Konto", "Ziel-URL"]

  const CampaignFields: seq<string> :=
    ["id", "employee", "name", "startDate", "endDate", "adBudget", "account", "kst", "project",
     "metaAccount", "targetUrl"]

  const CampaignColumns: seq<Column> :=
    [Source("id"), Source("employee"), Source("name"), Source("startDate"), Source("endDate"), Source("adBudget"),
     Source("account"), Source("kst"), Source("project"), Source("metaAccount"), Source("targetUrl")]

  /** Eleven columns, the amount in `Werbebudget (CHF)`, the table at row 6. */
  const Campaigns: Schema := Schema(CampaignLabels, 5, 6)

  /** A campaign line: every column taken from the listed source field, the
      budget in the amount column. */
  function CampaignRow(r: Record): (row: Row)
    ensures ValidSchema(Campaigns) && |row| == |Campaigns.labels| == |CampaignFields| == 11
    ensures forall k :: 0 <= k < |row| ==> row[k] == Field(r, CampaignFields[k])
    ensures CellAt(row, Campaigns.amount) == Field(r, "adBudget")
  {
    MapRow(CampaignColumns, r)
  }

  /** The five header lines above a campaign statement. */
  function CampaignsHeader(project: string, period: string): (h: seq<Row>)
    ensures |h| == 5 && |h| < Campaigns.offset
    ensures h[0] == [Text("Kampagnenabrechnung")] && h[1] == [Text("Lenzerheide Marketing+Support AG")]
    ensures h[2] == [Text("")]
    ensures h[3] == [Text("Monat/Jahr: " + HumanPeriod(period))] && h[4] == [Text("Projekt: " + project)]
  {
    [[Text("Kampagnenabrechnung")],
     [Text("Lenzerheide Marketing+Support AG")],
     [Text("")],
     [Text("Monat/Jahr: " + HumanPeriod(period))],
     [Text("Projekt: " + project)]]
  }

  /** The candidate names of the attachment column, in order of preference. */
  const ImageColumns: seq<string> := ["imagePath", "image_path", "assetPath", "filePath", "image"]

  /** The first of `candidates` that is one of `columns`, or None. */
  function FirstColumn(candidates: seq<string>, columns: set<string>): (col: Option<string>)
    ensures col.None? <==> forall i :: 0 <= i < |candidates| ==> candidates[i] !in columns
    ensures col.Some? ==>
              exists i :: 0 <= i < |candidates| && candidates[i] == col.value && col.value in columns &&
                          forall j :: 0 <= j < i ==> candidates[j] !in columns
    decreases |candidates|
  {
    if candidates == [] then None
    else if candidates[0] in columns then Some(candidates[0])
    else
      var rest := FirstColumn(candidates[1..], columns);
      assert forall i :: 1 <= i < |candidates| ==> candidates[i] == candidates[1..][i - 1];
      rest
  }

  /** The attachment column of a campaign frame: the first candidate that
      is a column of the frame, or None. */
  method FindImageColumn(columns: set<string>) returns (col: Option<string>)
    ensures col == FirstColumn(ImageColumns, columns)
  {
    col := None;
    var i := 0;
    while i < |ImageColumns|
      invariant 0 <= i <= |ImageColumns|
      invariant FirstColumn(ImageColumns[i..], columns) == FirstColumn(ImageColumns, columns)
    {
      if ImageColumns[i] in columns {
        col := Some(ImageColumns[i]);
        break;
      }
      assert ImageColumns[i..][1..] == ImageColumns[i + 1..];
      i := i + 1;
    }
  }

  // ---------------------------------------------------------------------
  // The earlier merge-free purchases script

  const LegacyLabels: seq<string> :=
    ["Beleg", "Rechnungssteller", "Text", "Kontierung Konto", "KST", "Projekt", "VAT", "BETRAG CHF", "BETRAG EUR"]

  const LegacyColumns: seq<Column> :=
    [Blank, Source("invoiceIssuer"), Source("itemName"), Source("account"), Source("kst"), Source("project"),
     Source("vatRate"), Source("price"), Blank]

  /** Nine columns with `Beleg` first, the amount in `BETRAG CHF`, the labels
      in row 0 and no header block. */
  const Legacy: Schema := Schema(LegacyLabels, 7, 0)

  /** A legacy line: `Beleg` inserted empty first (so no line row carries the
      `'TOTAL'` marker of column 0), the price in the amount column and
      `BETRAG EUR` empty at the end. */
  function LegacyRow(r: Record): (row: Row)
    ensures ValidSchema(Legacy) && |row| == |Legacy.labels| == 9
    ensures row[0] == Text("") && row[8] == Text("") && IdOf(row) != Sentinel
    ensures row[1] == Field(r, "invoiceIssuer") && row[2] == Field(r, "itemName")
    ensures row[3] == Field(r, "account") && row[4] == Field(r, "kst") && row[5] == Field(r, "project") &&
            row[6] == Field(r, "vatRate")
    ensures CellAt(row, Legacy.amount) == Field(r, "price")
  {
    MapRow(LegacyColumns, r)
  }
}
