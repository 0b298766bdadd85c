/** An abstract openpyxl workbook: what the extraction core reads from a loaded file.
    Both loads of the file (formula text kept, and cached values only) have this shape. */
module Workbook {
  import opened Wrappers
  import opened PyText
  import opened Seqs

  /** Spreadsheet rows and columns are numbered from 1. */
  type Index = n: int | n >= 1 witness 1

  /** A cell's value as openpyxl returns it, limited to the kinds the core tells apart;
      `Empty` is Python's `None`. */
  datatype CellValue = Str(s: string) | Int(i: int) | Bool(b: bool) | Empty

  /** An openpyxl `Cell` object is unique per (sheet, row, column) within one load,
      so its identity is that triple. */
  datatype CellId = CellId(sheet: string, row: Index, col: Index)

  /** A cell as the scan sees it: where it is and what it holds. */
  datatype Cell = Cell(id: CellId, value: CellValue)

  /** A worksheet: its title, the extent `max_row` x `max_column` openpyxl reports
      (at least 1 x 1, even for an empty sheet), and the populated cells. */
  datatype Sheet = Sheet(name: string, maxRow: Index, maxCol: Index, cells: map<(int, int), CellValue>)

  /** A destination of a defined name: one cell (`ws[rng]` is a Cell) or a block of
      cells (`ws[rng]` is a tuple of rows). */
  datatype Ref =
    | CellRef(row: Index, col: Index)
    | RangeRef(minRow: Index, minCol: Index, maxRow: Index, maxCol: Index)

  datatype Destination = Destination(sheet: string, ref: Ref)

  /** One entry of `wb.defined_names.definedName`. */
  datatype DefinedName = DefinedName(
    name: string,
    localSheetId: Option<nat>,
    destinations: seq<Destination>,
    attrText: string)

  datatype Book = Book(sheets: seq<Sheet>, definedNames: seq<DefinedName>)

  function SheetNames(wb: Book): (r: seq<string>)
    ensures |r| == |wb.sheets| && forall i :: 0 <= i < |r| ==> r[i] == wb.sheets[i].name
  {
    seq(|wb.sheets|, i requires 0 <= i < |wb.sheets| => wb.sheets[i].name)
  }

  function HasTitle(name: string): Sheet -> bool {
    (sh: Sheet) => sh.name == name
  }

  /** `wb[name]`: the first sheet with that title, or a KeyError. */
  function SheetNamed(wb: Book, name: string): (r: Result<Sheet>)
    ensures r.Ok? ==> r.value in wb.sheets && r.value.name == name
    ensures r.Err? <==> name !in SheetNames(wb)
    ensures r.Err? ==> r.fault == KeyError
  {
    match FirstIndex(wb.sheets, HasTitle(name))
    case Some(k) => Ok(wb.sheets[k])
    case None => Err(KeyError)
  }

  /** `ws.cell(row, column).value`: a cell never written reads as None. */
  function ValueAt(sh: Sheet, row: int, col: int): CellValue {
    if (row, col) in sh.cells then sh.cells[(row, col)] else Empty
  }

  function CellAt(sh: Sheet, row: Index, col: Index): (c: Cell)
    ensures c.id == CellId(sh.name, row, col) && c.value == ValueAt(sh, row, col)
  {
    Cell(CellId(sh.name, row, col), ValueAt(sh, row, col))
  }

  /** Python truthiness of a value. */
  predicate Truthy(v: CellValue) {
    match v
    case Str(s) => s != []
    case Int(i) => i != 0
    case Bool(b) => b
    case Empty => false
  }

  /** Python `str(v)`. */
  function PyStr(v: CellValue): string {
    match v
    case Str(s) => s
    case Int(i) => IntToString(i)
    case Bool(b) => if b then "True" else "False"
    case Empty => "None"
  }

  /** `cell.coordinate`: column letters followed by the row number, as in "B12". */
  function Coordinate(id: CellId): string {
    ColumnLetters(id.col) + NatToString(id.row)
  }

  /** A cell coordinate passes `str.isupper`; this is why a bare reference such as `A1`
      that forms a part of its own is taken for a built-in function name by the tokenizer. */
  lemma CoordinateIsUpper(id: CellId)
    ensures IsUpper(Coordinate(id))
  {
    var letters, digits := ColumnLetters(id.col), NatToString(id.row);
    assert Coordinate(id)[0] == letters[0];
    forall i | 0 <= i < |Coordinate(id)| ensures !IsLowerChar(Coordinate(id)[i]) {
      if i < |letters| {
        assert Coordinate(id)[i] == letters[i];
      } else {
        assert Coordinate(id)[i] == digits[i - |letters|];
      }
    }
  }
}
