/** Values shared by every part of the ledger engine: cells and rows of a ledger
    table, fetched records, and the contents of local and remote files. */
module Values {

  datatype Option<T> = None | Some(value: T)

  newtype byte = x: int | 0 <= x < 256
  type Bytes = seq<byte>

  /** One spreadsheet cell: a text, an amount in integer cents, or an empty
      cell (pandas' NaN or Python's None). */
  datatype Cell = Text(s: string) | Amount(n: int) | Null

  /** One ledger row. Column 0 holds the row's identifier. */
  type Row = seq<Cell>

  type Year = y: int | 0 <= y <= 9999
  type Month = m: int | 1 <= m <= 12 witness 1

  /** The year and month of a record's timestamp, as `pd.to_datetime` parsed it. */
  datatype Stamp = Stamp(year: Year, month: Month)

  /** One fetched record: its fields by name, and the parsed year and month
      of each timestamp field that is not null. */
  datatype Record = Record(fields: map<string, Cell>, stamps: map<string, Stamp>)

  /** The value a DataFrame row holds in column `name`: absent keys read as NaN. */
  function Field(r: Record, name: string): Cell
  {
    if name in r.fields then r.fields[name] else Null
  }

  /** The parsed value of timestamp field `name`: None for a null timestamp (`NaT`). */
  function StampOf(r: Record, name: string): Option<Stamp>
  {
    if name in r.stamps then Some(r.stamps[name]) else None
  }

  /** The DataFrame built from `records` has a column `name` when any record has that key. */
  predicate HasColumn(records: seq<Record>, name: string)
  {
    exists r :: r in records && name in r.fields
  }

  /** The contents of a file: a spreadsheet (a sequence of sheet rows) or raw bytes. */
  datatype Blob = Sheet(rows: seq<Row>) | Data(bytes: Bytes)

  /** What a file path holds, if anything. */
  function Lookup(files: map<string, Blob>, path: string): Option<Blob>
  {
    if path in files then Some(files[path]) else None
  }

  /** Writing one path changes what that path holds and nothing else. */
  lemma LookupUpdate(files: map<string, Blob>, path: string, b: Blob)
    ensures Lookup(files[path := b], path) == Some(b)
    ensures forall p :: p != path ==> Lookup(files[path := b], p) == Lookup(files, p)
  {
  }
}
