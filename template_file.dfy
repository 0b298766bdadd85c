/** template_file.py: the scan for formulas and constants, the expansion of the defined
    names, the three matching stages and the pipeline that runs them. */
module TemplateFile {
  import opened Wrappers
  import opened PyText
  import opened Seqs
  import opened Workbook
  import opened Tokenizer
  import opened Entities

  // ---------------------------------------------------------------------------
  // Scanning the sheets

  /** Cells 1..c of row `r` of the working range, left to right. */
  function RowCells(ws: Sheet, r: Index, c: nat): (cells: seq<Cell>)
    ensures |cells| == c
  {
    if c == 0 then [] else RowCells(ws, r, c - 1) + [CellAt(ws, r, c)]
  }

  /** Rows 1..r of the working range `ws['A1':last]`, each row left to right. */
  function GridRows(ws: Sheet, r: nat): seq<Cell> {
    if r == 0 then [] else GridRows(ws, r - 1) + RowCells(ws, r, ws.maxCol)
  }

  /** The whole working range of a sheet, from A1 to its last row and column. */
  function GridCells(ws: Sheet): seq<Cell> {
    GridRows(ws, ws.maxRow)
  }

  /** The first `n` titles of `wb.sheetnames` in turn, each sheet looked up by its title. */
  function SheetsCells(wb: Book, n: nat): seq<Cell>
    requires n <= |wb.sheets|
  {
    if n == 0 then []
    else
      assert SheetNames(wb)[n - 1] == wb.sheets[n - 1].name;
      SheetsCells(wb, n - 1) + GridCells(SheetNamed(wb, wb.sheets[n - 1].name).value)
  }

  /** Every cell the scan visits, in visiting order. */
  function ScannedCells(wb: Book): seq<Cell> {
    SheetsCells(wb, |wb.sheets|)
  }

  lemma {:induction false} RowCellsAt(ws: Sheet, r: Index, c: nat, j: Index)
    requires j <= c
    ensures RowCells(ws, r, c)[j - 1] == CellAt(ws, r, j)
  {
    if j < c {
      RowCellsAt(ws, r, c - 1, j);
    }
  }

  /** The working range is visited row by row: cell (r, j) is at position
      (r - 1) * max_column + (j - 1). */
  lemma {:induction false} GridRowsLength(ws: Sheet, rows: nat)
    ensures |GridRows(ws, rows)| == rows * ws.maxCol
  {
    if rows > 0 {
      GridRowsLength(ws, rows - 1);
    }
  }

  lemma {:induction false} GridOrder(ws: Sheet, rows: nat, r: Index, j: Index)
    requires r <= rows && j <= ws.maxCol
    ensures (r - 1) * ws.maxCol + j - 1 < |GridRows(ws, rows)|
    ensures GridRows(ws, rows)[(r - 1) * ws.maxCol + j - 1] == CellAt(ws, r, j)
  {
    var m := ws.maxCol;
    GridRowsLength(ws, rows - 1);
    GridRowsLength(ws, rows);
    if r == rows {
      RowCellsAt(ws, r, m, j);
      assert (r - 1) * m + j - 1 == |GridRows(ws, rows - 1)| + (j - 1);
    } else {
      GridOrder(ws, rows - 1, r, j);
      assert (rows - 1) * m <= rows * m;
    }
  }

  /** Every visited cell lies on the sheet the scan reads it from. */
  lemma {:induction false} GridOnSheet(ws: Sheet, rows: nat)
    ensures forall c :: c in GridRows(ws, rows) ==> c.id.sheet == ws.name
  {
    if rows > 0 {
      GridOnSheet(ws, rows - 1);
      RowOnSheet(ws, rows, ws.maxCol);
    }
  }

  lemma {:induction false} RowOnSheet(ws: Sheet, r: Index, c: nat)
    ensures forall x :: x in RowCells(ws, r, c) ==> x.id.sheet == ws.name
  {
    if c > 0 {
      RowOnSheet(ws, r, c - 1);
    }
  }

  /** Every scanned cell is on one of the workbook's sheets. */
  lemma {:induction false} ScannedOnSheets(wb: Book, n: nat)
    requires n <= |wb.sheets|
    ensures forall c :: c in SheetsCells(wb, n) ==> c.id.sheet in SheetNames(wb)
  {
    if n > 0 {
      ScannedOnSheets(wb, n - 1);
      var ws := SheetNamed(wb, wb.sheets[n - 1].name).value;
      GridOnSheet(ws, ws.maxRow);
      assert SheetNames(wb)[n - 1] == ws.name;
    }
  }

  /** Skipped by the scan: an empty cell, or text that does not begin with '='. */
  predicate IsSkippedCell(c: Cell) {
    c.value.Empty? || (c.value.Str? && !StartsWith(c.value.s, "="))
  }

  /** A formula: text beginning with '='. */
  predicate IsFormulaCell(c: Cell) {
    c.value.Str? && StartsWith(c.value.s, "=")
  }

  /** A constant: any other value, that is a number or a boolean. */
  predicate IsConstantCell(c: Cell) {
    !IsSkippedCell(c) && !IsFormulaCell(c)
  }

  function FormulaCells(wb: Book): seq<Cell> {
    Filter(ScannedCells(wb), IsFormulaCell)
  }

  function ConstantCells(wb: Book): seq<Cell> {
    Filter(ScannedCells(wb), IsConstantCell)
  }

  /** Each visited cell is skipped, taken as a formula or taken as a constant, and
      exactly one of these: the three selections make up the visited cells. */
  lemma {:induction false} CellsPartition(cells: seq<Cell>)
    ensures multiset(cells) ==
      multiset(Filter(cells, IsSkippedCell)) + multiset(Filter(cells, IsFormulaCell)) +
      multiset(Filter(cells, IsConstantCell))
  {
    if cells != [] {
      var c, rest := cells[0], cells[1..];
      CellsPartition(rest);
      assert cells == [c] + rest;
      if IsSkippedCell(c) {
        assert Filter(cells, IsSkippedCell) == [c] + Filter(rest, IsSkippedCell);
      } else if IsFormulaCell(c) {
        assert Filter(cells, IsFormulaCell) == [c] + Filter(rest, IsFormulaCell);
      } else {
        assert Filter(cells, IsConstantCell) == [c] + Filter(rest, IsConstantCell);
      }
    }
  }

  /** A constant is a cell holding a number or a boolean. */
  lemma ConstantsAreValues(wb: Book, c: Cell)
    ensures c in ConstantCells(wb) <==> c in ScannedCells(wb) && (c.value.Int? || c.value.Bool?)
  {
    FilterMember(ScannedCells(wb), IsConstantCell, c);
  }

  /** The `Formula` the scan makes for a formula cell holding `text`: it stores
      `text[1..]` after its own strip of one '='. */
  predicate FormulaFrom(f: Formula, c: Cell) {
    IsFormulaCell(c) && f.sheet == c.id.sheet && f.cell == c && f.value == ParseValue(c.value.s[1..])
  }

  /** ... and its tokens are those of `text[1..]`, taken before that second strip. */
  predicate TokenizedFrom(f: Formula, c: Cell) {
    IsFormulaCell(c) && f.Parsed() == Tokenization(c.value.s[1..])
  }

  /** The `Variable` the scan makes for a constant cell. */
  predicate ConstantFrom(v: Variable, c: Cell) {
    IsConstantCell(c) && v.sheet == c.id.sheet && v.cell == c && v.value == PyStr(c.value)
  }

  predicate FormulaUnmatched(f: Formula)
    reads f
  {
    f.variables == [] && f.name.None? && f.output.None?
  }

  predicate ConstantUnmatched(v: Variable)
    reads v
  {
    v.name.None? && v.output.None?
  }

  /** The scan's lists correspond one to one, in order, to the formula and constant
      cells among `visited`. */
  predicate Collected(formulas: seq<Formula>, constants: seq<Variable>, visited: seq<Cell>)
    reads formulas, constants
  {
    var fs, cs := Filter(visited, IsFormulaCell), Filter(visited, IsConstantCell);
    |formulas| == |fs| && |constants| == |cs| &&
    (forall k :: 0 <= k < |formulas| ==> FormulaFrom(formulas[k], fs[k]) && FormulaUnmatched(formulas[k])) &&
    (forall k {:trigger TokenizedFrom(formulas[k], Filter(visited, IsFormulaCell)[k])} :: 0 <= k < |formulas| ==>
      TokenizedFrom(formulas[k], Filter(visited, IsFormulaCell)[k])) &&
    (forall k :: 0 <= k < |constants| ==> ConstantFrom(constants[k], cs[k]) && ConstantUnmatched(constants[k])) &&
    Distinct(formulas) && Distinct(constants)
  }

  /** `_get_formulas_and_constants`: visits every cell of every sheet's working range
      and makes a `Formula` for each formula cell and a `Variable` for each constant. */
  method GetFormulasAndConstants(wb: Book) returns (formulas: seq<Formula>, constants: seq<Variable>)
    ensures Collected(formulas, constants, ScannedCells(wb))
    ensures forall k :: 0 <= k < |formulas| ==> fresh(formulas[k])
    ensures forall k :: 0 <= k < |constants| ==> fresh(constants[k])
  {
    formulas, constants := [], [];
    ghost var visited: seq<Cell> := [];
    for i := 0 to |wb.sheets|
      invariant visited == SheetsCells(wb, i)
      invariant Collected(formulas, constants, visited)
      invariant forall f :: f in formulas ==> fresh(f)
      invariant forall v :: v in constants ==> fresh(v)
    {
      var sheetName := wb.sheets[i].name;
      assert SheetNames(wb)[i] == sheetName;
      var ws := SheetNamed(wb, sheetName).value;
      formulas, constants := ScanSheet(formulas, constants, visited, ws);
      visited := visited + GridCells(ws);
    }
    assert forall k :: 0 <= k < |formulas| ==> formulas[k] in formulas;
    assert forall k :: 0 <= k < |constants| ==> constants[k] in constants;
  }

  /** The outer loop over one sheet's working range: row by row. */
  method ScanSheet(formulas: seq<Formula>, constants: seq<Variable>, ghost visited: seq<Cell>, ws: Sheet)
    returns (formulas': seq<Formula>, constants': seq<Variable>)
    requires Collected(formulas, constants, visited)
    ensures Collected(formulas', constants', visited + GridCells(ws))
    ensures forall f :: f in formulas' ==> f in formulas || fresh(f)
    ensures forall v :: v in constants' ==> v in constants || fresh(v)
  {
    formulas', constants' := formulas, constants;
    assert visited + GridRows(ws, 0) == visited;
    var r := 0;
    while r < ws.maxRow
      invariant 0 <= r <= ws.maxRow
      invariant Collected(formulas', constants', visited + GridRows(ws, r))
      invariant forall f :: f in formulas' ==> f in formulas || fresh(f)
      invariant forall v :: v in constants' ==> v in constants || fresh(v)
    {
      r := r + 1;
      formulas', constants' := ScanRow(formulas', constants', visited + GridRows(ws, r - 1), ws, r);
      GridStep(visited, ws, r);
    }
  }

  lemma GridStep(visited: seq<Cell>, ws: Sheet, r: Index)
    ensures visited + GridRows(ws, r) == (visited + GridRows(ws, r - 1)) + RowCells(ws, r, ws.maxCol)
  {
  }

  /** The inner loop: the cells of row `r`, left to right. */
  method ScanRow(formulas: seq<Formula>, constants: seq<Variable>, ghost visited: seq<Cell>, ws: Sheet, r: Index)
    returns (formulas': seq<Formula>, constants': seq<Variable>)
    requires Collected(formulas, constants, visited)
    ensures Collected(formulas', constants', visited + RowCells(ws, r, ws.maxCol))
    ensures forall f :: f in formulas' ==> f in formulas || fresh(f)
    ensures forall v :: v in constants' ==> v in constants || fresh(v)
  {
    formulas', constants' := formulas, constants;
    ghost var seen := visited;
    assert seen == visited + RowCells(ws, r, 0);
    for c := 1 to ws.maxCol + 1
      invariant seen == visited + RowCells(ws, r, c - 1)
      invariant Collected(formulas', constants', seen)
      invariant forall f :: f in formulas' ==> f in formulas || fresh(f)
      invariant forall v :: v in constants' ==> v in constants || fresh(v)
    {
      var cell := CellAt(ws, r, c);
      formulas', constants' := Visit(formulas', constants', seen, ws.name, cell);
      seen := seen + [cell];
      assert seen == visited + RowCells(ws, r, c);
    }
  }

  /** The body of the scan for one cell: skip it, or make its `Formula` or `Variable`
      and append it to its list. */
  method Visit(formulas: seq<Formula>, constants: seq<Variable>, ghost visited: seq<Cell>,
               sheetName: string, cell: Cell)
    returns (formulas': seq<Formula>, constants': seq<Variable>)
    requires cell.id.sheet == sheetName
    requires Collected(formulas, constants, visited)
    ensures Collected(formulas', constants', visited + [cell])
    ensures forall f :: f in formulas' ==> f in formulas || fresh(f)
    ensures forall v :: v in constants' ==> v in constants || fresh(v)
  {
    formulas', constants' := formulas, constants;
    if cell.value.Empty? || (cell.value.Str? && !StartsWith(cell.value.s, "=")) {
      CollectedSkip(formulas, constants, visited, cell);
      return;
    }
    if cell.value.Str? && StartsWith(cell.value.s, "=") {
      var f := new Formula(sheetName, cell, cell.value.s[1..]);
      FormulaValue(cell);
      CollectedFormula(formulas, constants, visited, cell, f);
      formulas' := formulas + [f];
    } else {
      var v := new Variable(sheetName, cell, cell.value);
      ConstantValue(cell);
      CollectedConstant(formulas, constants, visited, cell, v);
      constants' := constants + [v];
    }
  }

  lemma CollectedSkip(formulas: seq<Formula>, constants: seq<Variable>, visited: seq<Cell>, cell: Cell)
    requires Collected(formulas, constants, visited) && IsSkippedCell(cell)
    ensures Collected(formulas, constants, visited + [cell])
  {
    ScanStep(visited, cell);
  }

  lemma CollectedFormula(formulas: seq<Formula>, constants: seq<Variable>, visited: seq<Cell>, cell: Cell, f: Formula)
    requires Collected(formulas, constants, visited) && f !in formulas
    requires FormulaFrom(f, cell) && TokenizedFrom(f, cell) && FormulaUnmatched(f)
    ensures Collected(formulas + [f], constants, visited + [cell])
  {
    ScanStep(visited, cell);
    var fs := Filter(visited, IsFormulaCell) + [cell];
    forall k | 0 <= k < |formulas| + 1
      ensures FormulaFrom((formulas + [f])[k], fs[k]) && TokenizedFrom((formulas + [f])[k], fs[k])
      ensures FormulaUnmatched((formulas + [f])[k])
    {
      if k < |formulas| {
        assert (formulas + [f])[k] == formulas[k];
        assert TokenizedFrom(formulas[k], Filter(visited, IsFormulaCell)[k]);
      }
    }
    DistinctSnoc(formulas, f);
  }

  lemma CollectedConstant(formulas: seq<Formula>, constants: seq<Variable>, visited: seq<Cell>, cell: Cell, v: Variable)
    requires Collected(formulas, constants, visited) && v !in constants
    requires ConstantFrom(v, cell) && ConstantUnmatched(v)
    ensures Collected(formulas, constants + [v], visited + [cell])
  {
    ScanStep(visited, cell);
    var cs := Filter(visited, IsConstantCell) + [cell];
    forall k | 0 <= k < |constants| + 1 ensures ConstantFrom((constants + [v])[k], cs[k]) && ConstantUnmatched((constants + [v])[k]) {
      if k < |constants| {
        assert (constants + [v])[k] == constants[k];
      }
    }
    DistinctSnoc(constants, v);
  }

  /** What one more visited cell adds to the two selections. */
  lemma ScanStep(visited: seq<Cell>, cell: Cell)
    ensures Filter(visited + [cell], IsFormulaCell) ==
      Filter(visited, IsFormulaCell) + (if IsFormulaCell(cell) then [cell] else [])
    ensures Filter(visited + [cell], IsConstantCell) ==
      Filter(visited, IsConstantCell) + (if IsConstantCell(cell) then [cell] else [])
  {
    FilterAppend(visited, cell, IsFormulaCell);
    FilterAppend(visited, cell, IsConstantCell);
  }

  // ---------------------------------------------------------------------------
  // Expanding the defined names

  /** The scope column: the title of the sheet a local name belongs to, or "Workbook"
      for a workbook-level name. An index past the last sheet is an IndexError. */
  function Scope(wb: Book, dn: DefinedName): (r: Result<string>)
    ensures r.Err? <==> dn.localSheetId.Some? && dn.localSheetId.value >= |wb.sheets|
    ensures r.Err? ==> r.fault == IndexError
    ensures r.Ok? ==> r.value == if dn.localSheetId.None? then "Workbook" else SheetNames(wb)[dn.localSheetId.value]
  {
    match dn.localSheetId
    case None => Ok("Workbook")
    case Some(id) => if id < |wb.sheets| then Ok(SheetNames(wb)[id]) else Err(IndexError)
  }

  function HasKey(name: string, id: Option<nat>): DefinedName -> bool {
    (d: DefinedName) => d.name == name && d.localSheetId == id
  }

  /** `wb.defined_names.get(name, localSheetId)`: the first definition with that name
      and that scope. */
  function LookupDefined(wb: Book, name: string, id: Option<nat>): Option<DefinedName> {
    match FirstIndex(wb.definedNames, HasKey(name, id))
    case Some(k) => Some(wb.definedNames[k])
    case None => None
  }

  /** The lookup done for a definition always succeeds; it returns a definition with the
      same name and scope, and that very definition when it is the first with that key
      (always, in a workbook whose names are unique per scope). */
  lemma LookupFindsDefinition(wb: Book, i: nat)
    requires i < |wb.definedNames|
    ensures LookupDefined(wb, wb.definedNames[i].name, wb.definedNames[i].localSheetId).Some?
    ensures HasKey(wb.definedNames[i].name, wb.definedNames[i].localSheetId)(
      LookupDefined(wb, wb.definedNames[i].name, wb.definedNames[i].localSheetId).value)
    ensures (forall j :: 0 <= j < i ==> !HasKey(wb.definedNames[i].name, wb.definedNames[i].localSheetId)(wb.definedNames[j])) ==>
      LookupDefined(wb, wb.definedNames[i].name, wb.definedNames[i].localSheetId) == Some(wb.definedNames[i])
  {
    var dn := wb.definedNames[i];
    assert HasKey(dn.name, dn.localSheetId)(wb.definedNames[i]);
  }

  /** The arguments of one `Name(...)` the expansion constructs. */
  datatype NameSpec = NameSpec(
    name: string,
    sheet: Option<string>,
    cell: Option<Cell>,
    value: CellValue,
    scope: string,
    isGlobal: bool)

  function CellName(name: string, scope: string, sheet: string, cell: Cell): NameSpec {
    NameSpec(name, Some(sheet), Some(cell), Empty, scope, false)
  }

  /** The cells `ws[rng]` yields for a destination, as `Name`s. A single cell gives one
      name; a block gives one per row, on the block's first column (rows with no cell
      fail on `c[0]` with an IndexError); a block with no rows gives none. */
  function DestinationNames(ws: Sheet, name: string, scope: string, sheet: string, ref: Ref): Result<seq<NameSpec>> {
    match ref
    case CellRef(row, col) => Ok([CellName(name, scope, sheet, CellAt(ws, row, col))])
    case RangeRef(r0, c0, r1, c1) =>
      if r1 < r0 then Ok([])
      else if c1 < c0 then Err(IndexError)
      else Ok(seq(r1 - r0 + 1, k requires 0 <= k <= r1 - r0 => CellName(name, scope, sheet, CellAt(ws, r0 + k, c0))))
  }

  /** The names one definition yields. With no destination it is a global constant
      holding the definition's text, an AttributeError when that text is empty;
      otherwise only the first destination is read (the loop always breaks), and its
      sheet must exist. */
  function Expand(wb: Book, name: string, scope: string, dests: seq<Destination>, attrText: string): Result<seq<NameSpec>> {
    if dests == [] then
      if attrText == [] then Err(AttributeError)
      else Ok([NameSpec(name, None, None, Str(attrText), scope, true)])
    else
      match SheetNamed(wb, dests[0].sheet)
      case Err(f) => Err(f)
      case Ok(ws) => DestinationNames(ws, name, scope, dests[0].sheet, dests[0].ref)
  }

  /** What one definition yields. No destination: exactly one global name, with no
      sheet and no cell, holding the definition's text. A single cell: exactly one name
      bound to it. A block of k rows: k names, in row order, each bound to its row's
      first cell. All of them share the definition's name and scope. */
  lemma ExpandShape(wb: Book, name: string, scope: string, dests: seq<Destination>, attrText: string)
    requires Expand(wb, name, scope, dests, attrText).Ok?
    ensures var r := Expand(wb, name, scope, dests, attrText).value;
      (forall k :: 0 <= k < |r| ==> r[k].name == name && r[k].scope == scope) &&
      (dests == [] ==> |r| == 1 && r[0].isGlobal && r[0].sheet.None? && r[0].cell.None? &&
                       r[0].value == Str(attrText) && attrText != []) &&
      (dests != [] ==> forall k :: 0 <= k < |r| ==>
                         !r[k].isGlobal && r[k].sheet == Some(dests[0].sheet) && r[k].cell.Some? &&
                         r[k].cell.value.id.sheet == dests[0].sheet) &&
      (dests != [] && dests[0].ref.CellRef? ==>
         |r| == 1 && r[0].cell.value.id == CellId(dests[0].sheet, dests[0].ref.row, dests[0].ref.col)) &&
      (dests != [] && dests[0].ref.RangeRef? ==>
         |r| == (if dests[0].ref.maxRow < dests[0].ref.minRow then 0 else dests[0].ref.maxRow - dests[0].ref.minRow + 1) &&
         forall k :: 0 <= k < |r| ==>
           r[k].cell.value.id == CellId(dests[0].sheet, dests[0].ref.minRow + k, dests[0].ref.minCol))
  {
    if dests != [] {
      var ws := SheetNamed(wb, dests[0].sheet).value;
      assert ws.name == dests[0].sheet;
      var r := Expand(wb, name, scope, dests, attrText).value;
      if dests[0].ref.RangeRef? {
        var ref := dests[0].ref;
        forall k | 0 <= k < |r|
          ensures r[k] == CellName(name, scope, dests[0].sheet, CellAt(ws, ref.minRow + k, ref.minCol))
        {
        }
      }
    }
  }

  /** Only the first destination matters. This holds by the definition of `Expand`, which
      reads `dests[0]` alone because the source's loop always breaks in its first
      iteration; the lemma records that consequence for callers. */
  lemma FirstDestinationOnly(wb: Book, name: string, scope: string, dests: seq<Destination>, attrText: string)
    requires dests != []
    ensures Expand(wb, name, scope, dests, attrText) == Expand(wb, name, scope, dests[..1], attrText)
  {
  }

  /** One iteration of the loop over `wb.defined_names.definedName`. */
  function DefinedNameEntry(wb: Book, i: nat): Result<seq<NameSpec>>
    requires i < |wb.definedNames|
  {
    var dn := wb.definedNames[i];
    LookupFindsDefinition(wb, i);
    match Scope(wb, dn)
    case Err(f) => Err(f)
    case Ok(scope) => Expand(wb, dn.name, scope, LookupDefined(wb, dn.name, dn.localSheetId).value.destinations, dn.attrText)
  }

  /** The first `n` iterations: the names so far, or the first failure. */
  function NamedRangesUpTo(wb: Book, n: nat): Result<seq<NameSpec>>
    requires n <= |wb.definedNames|
  {
    if n == 0 then Ok([])
    else
      match NamedRangesUpTo(wb, n - 1)
      case Err(f) => Err(f)
      case Ok(prev) =>
        match DefinedNameEntry(wb, n - 1)
        case Err(f) => Err(f)
        case Ok(more) => Ok(prev + more)
  }

  /** What `_get_named_ranges` returns or raises. */
  function NamedRanges(wb: Book): Result<seq<NameSpec>> {
    NamedRangesUpTo(wb, |wb.definedNames|)
  }

  lemma UpToStep(wb: Book, i: nat, specs: seq<NameSpec>)
    requires i < |wb.definedNames| && NamedRangesUpTo(wb, i) == Ok(specs)
    ensures NamedRangesUpTo(wb, i + 1) ==
      match DefinedNameEntry(wb, i)
      case Err(f) => Err(f)
      case Ok(more) => Ok(specs + more)
  {
  }

  /** Once an iteration fails, the whole loop fails with that fault. */
  lemma {:induction false} FailureStops(wb: Book, i: nat, n: nat)
    requires i <= n <= |wb.definedNames|
    requires NamedRangesUpTo(wb, i).Err?
    ensures NamedRangesUpTo(wb, n) == NamedRangesUpTo(wb, i)
  {
    if n > i {
      FailureStops(wb, i, n - 1);
    }
  }

  /** A name the expansion can construct: a global constant has no cell and non-empty
      text; any other name is bound to a cell of an existing sheet, and that sheet is
      its `sheet`. */
  predicate WellFormedSpec(wb: Book, s: NameSpec) {
    PostInitValue(s.value, s.cell).Ok? &&
    (s.isGlobal <==> s.cell.None?) &&
    (s.cell.None? ==> s.sheet.None?) &&
    (s.cell.Some? ==> s.sheet == Some(s.cell.value.id.sheet) && s.cell.value.id.sheet in SheetNames(wb))
  }

  lemma EntryWellFormed(wb: Book, i: nat)
    requires i < |wb.definedNames| && DefinedNameEntry(wb, i).Ok?
    ensures forall s :: s in DefinedNameEntry(wb, i).value ==> WellFormedSpec(wb, s)
  {
    var dn := wb.definedNames[i];
    LookupFindsDefinition(wb, i);
    var dests := LookupDefined(wb, dn.name, dn.localSheetId).value.destinations;
    if dests != [] && SheetNamed(wb, dests[0].sheet).Ok? {
      var ws := SheetNamed(wb, dests[0].sheet).value;
      var names := DestinationNames(ws, dn.name, Scope(wb, dn).value, dests[0].sheet, dests[0].ref);
      if names.Ok? && dests[0].ref.RangeRef? {
        forall s | s in names.value ensures WellFormedSpec(wb, s) {
          var k :| 0 <= k < |names.value| && names.value[k] == s;
          assert s == CellName(dn.name, Scope(wb, dn).value, dests[0].sheet,
            CellAt(ws, dests[0].ref.minRow + k, dests[0].ref.minCol));
        }
      }
    }
  }

  /** Every name `_get_named_ranges` yields is well formed. */
  lemma {:induction false} NamedRangesWellFormed(wb: Book, n: nat)
    requires n <= |wb.definedNames| && NamedRangesUpTo(wb, n).Ok?
    ensures forall s :: s in NamedRangesUpTo(wb, n).value ==> WellFormedSpec(wb, s)
  {
    if n > 0 {
      NamedRangesWellFormed(wb, n - 1);
      EntryWellFormed(wb, n - 1);
    }
  }

  /** The `Name` object corresponding to a specification, as constructed. */
  predicate NameFrom(n: Name, s: NameSpec) {
    PostInitValue(s.value, s.cell).Ok? &&
    n.name == s.name && n.sheet == s.sheet && n.cell == s.cell && n.scope == s.scope &&
    n.isGlobal == s.isGlobal && n.value == PostInitValue(s.value, s.cell).value
  }

  predicate NameUnmatched(n: Name)
    reads n
  {
    n.isUsed.None? && n.output.None?
  }

  predicate Built(names: seq<Name>, specs: seq<NameSpec>)
    reads names
  {
    MadeFrom(names, specs) && Distinct(names)
  }

  /** Each `Name` is made from the specification at its position and not matched yet. */
  predicate MadeFrom(names: seq<Name>, specs: seq<NameSpec>)
    reads names
  {
    |names| == |specs| &&
    forall k {:trigger NameFrom(names[k], specs[k])} {:trigger NameUnmatched(names[k])} ::
      0 <= k < |names| ==> NameFrom(names[k], specs[k]) && NameUnmatched(names[k])
  }

  /** `_get_named_ranges`: one iteration per definition, appending its `Name`s. */
  method GetNamedRanges(wb: Book) returns (r: Result<seq<Name>>)
    ensures r.Err? <==> NamedRanges(wb).Err?
    ensures r.Err? ==> r.fault == NamedRanges(wb).fault
    ensures r.Ok? ==> Built(r.value, NamedRanges(wb).value)
    ensures r.Ok? ==> forall k :: 0 <= k < |r.value| ==> fresh(r.value[k])
  {
    var list: seq<Name> := [];
    ghost var specs: seq<NameSpec> := [];
    for i := 0 to |wb.definedNames|
      invariant NamedRangesUpTo(wb, i) == Ok(specs)
      invariant Built(list, specs)
      invariant forall n :: n in list ==> fresh(n)
    {
      var more := NewNames(wb, i);
      if more.Err? {
        UpToStep(wb, i, specs);
        FailureStops(wb, i + 1, |wb.definedNames|);
        return Err(more.fault);
      }
      UpToStep(wb, i, specs);
      assert forall n :: n in more.value ==> n !in list;
      assert forall n :: n in list + more.value ==> fresh(n);
      BuiltAppend(list, specs, more.value, DefinedNameEntry(wb, i).value);
      list, specs := list + more.value, specs + DefinedNameEntry(wb, i).value;
    }
    assert forall k :: 0 <= k < |list| ==> list[k] in list;
    r := Ok(list);
  }

  lemma BuiltAppend(names: seq<Name>, specs: seq<NameSpec>, more: seq<Name>, moreSpecs: seq<NameSpec>)
    requires Built(names, specs) && Built(more, moreSpecs)
    requires forall n :: n in more ==> n !in names
    ensures Built(names + more, specs + moreSpecs)
  {
    MadeFromAppend(names, specs, more, moreSpecs);
    DistinctConcat(names, more);
  }

  lemma MadeFromAppend(names: seq<Name>, specs: seq<NameSpec>, more: seq<Name>, moreSpecs: seq<NameSpec>)
    requires MadeFrom(names, specs) && MadeFrom(more, moreSpecs)
    ensures MadeFrom(names + more, specs + moreSpecs)
  {
    var all, allSpecs := names + more, specs + moreSpecs;
    forall k | 0 <= k < |all| ensures NameFrom(all[k], allSpecs[k]) && NameUnmatched(all[k]) {
      if k >= |names| {
        assert all[k] == more[k - |names|] && allSpecs[k] == moreSpecs[k - |names|];
      }
    }
  }

  /** One iteration: the scope, the lookup, then the names of the first destination,
      or the global constant. */
  method NewNames(wb: Book, i: nat) returns (r: Result<seq<Name>>)
    requires i < |wb.definedNames|
    ensures r.Err? <==> DefinedNameEntry(wb, i).Err?
    ensures r.Err? ==> r.fault == DefinedNameEntry(wb, i).fault
    ensures r.Ok? ==> Built(r.value, DefinedNameEntry(wb, i).value)
    ensures r.Ok? ==> forall n :: n in r.value ==> fresh(n)
  {
    var dn := wb.definedNames[i];
    var scope := Scope(wb, dn);
    if scope.Err? {
      return Err(scope.fault);
    }
    LookupFindsDefinition(wb, i);
    var dest := LookupDefined(wb, dn.name, dn.localSheetId).value.destinations;
    if dest == [] {
      if dn.attrText == [] {
        return Err(AttributeError);
      }
      var n := new Name(dn.name, None, None, Str(dn.attrText), scope.value, true);
      return Ok([n]);
    }
    var sheetName := dest[0].sheet;
    var ws := SheetNamed(wb, sheetName);
    if ws.Err? {
      return Err(ws.fault);
    }
    match dest[0].ref
    case CellRef(row, col) =>
      var n := new Name(dn.name, Some(sheetName), Some(CellAt(ws.value, row, col)), Empty, scope.value, false);
      return Ok([n]);
    case RangeRef(r0, c0, r1, c1) =>
      if r1 < r0 {
        return Ok([]);
      }
      if c1 < c0 {
        return Err(IndexError);
      }
      var list := RowNames(ws.value, dn.name, scope.value, sheetName, r0, c0, r1);
      return Ok(list);
  }

  /** `for c in ws[rng]`: one `Name` per row of the block, on its first cell. */
  method RowNames(ws: Sheet, name: string, scope: string, sheetName: string, r0: Index, c0: Index, r1: Index)
    returns (list: seq<Name>)
    requires r0 <= r1
    ensures Built(list, seq(r1 - r0 + 1, k requires 0 <= k <= r1 - r0 => CellName(name, scope, sheetName, CellAt(ws, r0 + k, c0))))
    ensures forall k :: 0 <= k < |list| ==> fresh(list[k])
  {
    ghost var specs := seq(r1 - r0 + 1, k requires 0 <= k <= r1 - r0 => CellName(name, scope, sheetName, CellAt(ws, r0 + k, c0)));
    list := [];
    for row := r0 to r1 + 1
      invariant |list| == row - r0 && Distinct(list)
      invariant forall k :: 0 <= k < |list| ==> NameFrom(list[k], specs[k]) && NameUnmatched(list[k]) && fresh(list[k])
    {
      var n := new Name(name, Some(sheetName), Some(CellAt(ws, row, c0)), Empty, scope, false);
      assert specs[row - r0] == CellName(name, scope, sheetName, CellAt(ws, row, c0));
      list := list + [n];
    }
  }

  // ---------------------------------------------------------------------------
  // Matching against the cached values

  /** The dictionary of lists `process_template_file` builds and returns. */
  datatype Items = Items(formulas: seq<Formula>, names: seq<Name>, constants: seq<Variable>)

  /** A constant after the first stage, given the name it had before. */
  predicate ConstantMatched(v: Variable, names: seq<Name>, wbData: Book, before: Option<string>)
    reads v
  {
    v.sheet in SheetNames(wbData) &&
    v.name == Some(NameLookup(names, Identity(Some(v.cell.id), before), v.coordinate)) &&
    v.output == Some(OutputAt(wbData, v.sheet, v.row, v.col))
  }

  /** A formula after the second stage, given the name it had before. */
  predicate FormulaMatched(f: Formula, names: seq<Name>, wbData: Book, before: Option<string>)
    reads f
  {
    f.sheet in SheetNames(wbData) &&
    f.name == Some(NameLookup(names, Identity(Some(f.cell.id), before), f.coordinate)) &&
    f.output == Some(OutputAt(wbData, f.sheet, f.row, f.col)) &&
    f.variables == Filter(names, NamedIn(f.candidates))
  }

  /** A defined name after the third stage. */
  predicate NameMatched(n: Name, used: seq<string>, wbData: Book)
    reads n
  {
    (n.row.Some? ==> n.sheet.Some? && n.sheet.value in SheetNames(wbData)) &&
    n.isUsed == Some(n.name in used) &&
    n.output == NameOutput(n, wbData)
  }

  /** First stage of `_match_output_data`: each constant gets its name and output. */
  method MatchConstants(constants: seq<Variable>, names: seq<Name>, wbData: Book)
    requires Distinct(constants)
    requires forall k :: 0 <= k < |constants| ==> constants[k].sheet in SheetNames(wbData)
    modifies constants
    ensures forall k :: 0 <= k < |constants| ==> ConstantMatched(constants[k], names, wbData, old(constants[k].name))
  {
    for i := 0 to |constants|
      invariant forall k :: 0 <= k < i ==> ConstantMatched(constants[k], names, wbData, old(constants[k].name))
      invariant forall k :: i <= k < |constants| ==> constants[k].name == old(constants[k].name)
    {
      assert forall k :: 0 <= k < |constants| && k != i ==> constants[k] != constants[i];
      MatchConstant(constants[i], names, wbData);
    }
  }

  /** The first stage's body for one constant. */
  method MatchConstant(v: Variable, names: seq<Name>, wbData: Book)
    requires v.sheet in SheetNames(wbData)
    modifies v
    ensures ConstantMatched(v, names, wbData, old(v.name))
  {
    v.SetName(names);
    v.SetOutput(wbData);
  }

  /** Second stage: each formula gets its name and output and has its candidates
      resolved to defined names; the first formula without candidates, when there are
      defined names, raises the TypeError and ends the stage (`ok` false). */
  method MatchFormulas(formulas: seq<Formula>, names: seq<Name>, wbData: Book) returns (ok: bool)
    requires Distinct(formulas)
    requires forall k :: 0 <= k < |formulas| ==> formulas[k].sheet in SheetNames(wbData)
    modifies formulas
    ensures ok <==> names == [] || forall k :: 0 <= k < |formulas| ==> formulas[k].candidates != []
    ensures ok ==> forall k :: 0 <= k < |formulas| ==> FormulaMatched(formulas[k], names, wbData, old(formulas[k].name))
  {
    for i := 0 to |formulas|
      invariant names == [] || forall k :: 0 <= k < i ==> formulas[k].candidates != []
      invariant forall k :: 0 <= k < i ==> FormulaMatched(formulas[k], names, wbData, old(formulas[k].name))
      invariant forall k :: i <= k < |formulas| ==> formulas[k].name == old(formulas[k].name)
    {
      assert forall k :: 0 <= k < |formulas| && k != i ==> formulas[k] != formulas[i];
      var resolved := MatchFormula(formulas[i], names, wbData);
      if !resolved {
        return false;
      }
    }
    return true;
  }

  /** The second stage's body for one formula; `ok` is false when `update_variables`
      raised, and then its variables are left as they were. */
  method MatchFormula(f: Formula, names: seq<Name>, wbData: Book) returns (ok: bool)
    requires f.sheet in SheetNames(wbData)
    modifies f
    ensures ok <==> names == [] || f.candidates != []
    ensures ok ==> FormulaMatched(f, names, wbData, old(f.name))
  {
    f.SetName(names);
    f.SetOutput(wbData);
    ok := f.UpdateVariables(names);
  }

  /** Third stage: each defined name learns whether a formula uses it, and its output. */
  method MatchNames(names: seq<Name>, formulas: seq<Formula>, wbData: Book)
    requires Distinct(names)
    requires forall k :: 0 <= k < |names| ==>
      names[k].row.Some? ==> names[k].sheet.Some? && names[k].sheet.value in SheetNames(wbData)
    modifies names
    ensures forall k :: 0 <= k < |names| ==> NameMatched(names[k], UsedNames(formulas), wbData)
  {
    for i := 0 to |names|
      invariant forall k :: 0 <= k < i ==> NameMatched(names[k], UsedNames(formulas), wbData)
    {
      assert forall k :: 0 <= k < |names| && k != i ==> names[k] != names[i];
      names[i].SetIsUsed(formulas);
      names[i].SetOutput(wbData);
    }
  }

  /** `_match_output_data`: the three stages in order; `ok` is false when the formula
      stage raised. */
  method MatchOutputData(items: Items, wbData: Book) returns (ok: bool)
    requires Distinct(items.constants) && Distinct(items.formulas) && Distinct(items.names)
    requires forall k :: 0 <= k < |items.constants| ==> items.constants[k].sheet in SheetNames(wbData)
    requires forall k :: 0 <= k < |items.formulas| ==> items.formulas[k].sheet in SheetNames(wbData)
    requires forall k :: 0 <= k < |items.names| ==>
      items.names[k].row.Some? ==> items.names[k].sheet.Some? && items.names[k].sheet.value in SheetNames(wbData)
    modifies items.constants, items.formulas, items.names
    ensures ok <==> items.names == [] || forall k :: 0 <= k < |items.formulas| ==> items.formulas[k].candidates != []
    ensures forall k :: 0 <= k < |items.constants| ==>
      ConstantMatched(items.constants[k], items.names, wbData, old(items.constants[k].name))
    ensures ok ==> forall k :: 0 <= k < |items.formulas| ==>
      FormulaMatched(items.formulas[k], items.names, wbData, old(items.formulas[k].name))
    ensures ok ==> forall k :: 0 <= k < |items.names| ==> NameMatched(items.names[k], UsedNames(items.formulas), wbData)
    ensures !ok ==> forall k :: 0 <= k < |items.names| ==>
      items.names[k].isUsed == old(items.names[k].isUsed) && items.names[k].output == old(items.names[k].output)
  {
    var constants, formulas, names := items.constants, items.formulas, items.names;
    MatchConstants(constants, names, wbData);
    ok := MatchFormulas(formulas, names, wbData);
    if !ok {
      return;
    }
    MatchNames(names, formulas, wbData);
  }

  // ---------------------------------------------------------------------------
  // The pipeline

  /** A formula cell whose text leaves the tokenizer no candidate name. */
  predicate NoCandidates(c: Cell) {
    IsFormulaCell(c) && Tokenization(c.value.s[1..]).variables == []
  }

  /** The exception `process_template_file` ends with, if any: the first failure among
      the defined names, else a TypeError when there are defined names and a formula
      without candidates. */
  function Failure(wb: Book): Option<Fault> {
    match NamedRanges(wb)
    case Err(f) => Some(f)
    case Ok(specs) =>
      if specs != [] && exists c :: c in FormulaCells(wb) && NoCandidates(c) then Some(TypeError) else None
  }

  /** A workbook whose defined names expand without error to at least one record, and that
      holds a formula `=A1+B1` (whose tokens are all taken for built-ins), ends with the
      TypeError of `update_variables`. */
  lemma CellOnlyFormulaRaises(wb: Book, c: Cell)
    requires NamedRanges(wb).Ok? && NamedRanges(wb).value != []
    requires c in ScannedCells(wb) && c.value == Str("=A1+B1")
    ensures Failure(wb) == Some(TypeError)
  {
    CellReferencesAreBuiltIns();
    assert "=A1+B1"[..1] == "=" && "=A1+B1"[1..] == "A1+B1";
    FilterMember(ScannedCells(wb), IsFormulaCell, c);
    assert NoCandidates(c);
  }

  /** A constant at the end: made from its cell, named after the first defined name
      bound to that cell (else its coordinate), with the cached value as output. */
  predicate ConstantDone(v: Variable, c: Cell, names: seq<Name>, wbData: Book)
    reads v
  {
    ConstantFrom(v, c) && v.sheet in SheetNames(wbData) &&
    v.name == Some(CellLookup(names, c.id, v.coordinate)) &&
    v.output == Some(OutputAt(wbData, v.sheet, v.row, v.col))
  }

  /** A formula at the end: as a constant, and its variables are the defined names whose
      name the tokenizer listed, in the order of the defined names. */
  predicate FormulaDone(f: Formula, c: Cell, names: seq<Name>, wbData: Book)
    reads f
  {
    FormulaFrom(f, c) && TokenizedFrom(f, c) && f.sheet in SheetNames(wbData) &&
    f.name == Some(CellLookup(names, c.id, f.coordinate)) &&
    f.output == Some(OutputAt(wbData, f.sheet, f.row, f.col)) &&
    f.variables == Filter(names, NamedIn(f.candidates))
  }

  /** A defined name at the end: used exactly when some formula's text lists it, with
      the cached value of its cell as output (None for a global constant). */
  predicate NameDone(n: Name, s: NameSpec, formulas: seq<Formula>, wbData: Book)
    reads n
  {
    NameFrom(n, s) && (n.row.Some? ==> n.sheet.Some? && n.sheet.value in SheetNames(wbData)) &&
    n.isUsed == Some(exists f :: f in formulas && n.name in f.candidates) &&
    n.output == NameOutput(n, wbData)
  }

  /** The returned lists, one to one and in order with the formula cells, the constant
      cells and the expanded defined names. */
  predicate Processed(wb: Book, wbData: Book, items: Items)
    reads items.formulas, items.names, items.constants
  {
    NamedRanges(wb).Ok? &&
    |items.names| == |NamedRanges(wb).value| &&
    |items.formulas| == |FormulaCells(wb)| &&
    |items.constants| == |ConstantCells(wb)| &&
    (forall k :: 0 <= k < |items.constants| ==>
      ConstantDone(items.constants[k], ConstantCells(wb)[k], items.names, wbData)) &&
    (forall k :: 0 <= k < |items.formulas| ==>
      FormulaDone(items.formulas[k], FormulaCells(wb)[k], items.names, wbData)) &&
    (forall k :: 0 <= k < |items.names| ==>
      NameDone(items.names[k], NamedRanges(wb).value[k], items.formulas, wbData))
  }

  /** `process_template_file` on the two loads of one file: `wb` with formula text and
      `wbData` with cached values, which therefore have the same sheets. */
  method ProcessTemplateFile(wb: Book, wbData: Book) returns (r: Result<Items>)
    requires SheetNames(wbData) == SheetNames(wb)
    ensures r.Err? <==> Failure(wb).Some?
    ensures r.Err? ==> r.fault == Failure(wb).value
    ensures r.Ok? ==> Processed(wb, wbData, r.value)
  {
    var named := GetNamedRanges(wb);
    if named.Err? {
      return Err(named.fault);
    }
    var names := named.value;
    var formulas, constants := GetFormulasAndConstants(wb);
    ScannedItemsOnSheets(wb, wbData, formulas, constants);
    NamesOnSheets(wb, wbData, names);
    FailureAt(wb, formulas, constants);
    ScanFacts(wb, formulas, constants);
    var items := Items(formulas, names, constants);
    var ok := MatchOutputData(items, wbData);
    if !ok {
      return Err(TypeError);
    }
    ConstantsDone(constants, ConstantCells(wb), names, wbData);
    FormulasDone(formulas, FormulaCells(wb), names, wbData);
    NamesDone(names, NamedRanges(wb).value, formulas, wbData);
    r := Ok(items);
  }

  /** Once the scan is done (and the defined names expanded), the pipeline fails exactly
      when there are defined names and some formula has no candidates. */
  lemma FailureAt(wb: Book, formulas: seq<Formula>, constants: seq<Variable>)
    requires NamedRanges(wb).Ok? && Collected(formulas, constants, ScannedCells(wb))
    ensures Failure(wb) ==
      if NamedRanges(wb).value != [] && exists k :: 0 <= k < |formulas| && formulas[k].candidates == []
      then Some(TypeError) else None
  {
    CollectedTokens(formulas, constants, ScannedCells(wb));
    NoCandidatesAt(FormulaCells(wb), formulas);
  }

  /** What the scan's lists say about the formula and constant cells, in the terms the
      last stage's lemmas use: one to one and in order, nothing named yet. */
  lemma ScanFacts(wb: Book, formulas: seq<Formula>, constants: seq<Variable>)
    requires Collected(formulas, constants, ScannedCells(wb))
    ensures |formulas| == |FormulaCells(wb)| && |constants| == |ConstantCells(wb)|
    ensures forall k :: 0 <= k < |formulas| ==> FormulaFrom(formulas[k], FormulaCells(wb)[k])
    ensures forall k {:trigger TokenizedFrom(formulas[k], FormulaCells(wb)[k])} ::
      0 <= k < |formulas| ==> TokenizedFrom(formulas[k], FormulaCells(wb)[k])
    ensures forall k :: 0 <= k < |constants| ==> ConstantFrom(constants[k], ConstantCells(wb)[k])
    ensures forall k :: 0 <= k < |formulas| ==> formulas[k].name == None
    ensures forall k :: 0 <= k < |constants| ==> constants[k].name == None
  {
    CollectedTokens(formulas, constants, ScannedCells(wb));
  }

  lemma CollectedTokens(formulas: seq<Formula>, constants: seq<Variable>, visited: seq<Cell>)
    requires Collected(formulas, constants, visited)
    ensures forall k {:trigger TokenizedFrom(formulas[k], Filter(visited, IsFormulaCell)[k])} ::
      0 <= k < |formulas| ==> TokenizedFrom(formulas[k], Filter(visited, IsFormulaCell)[k])
  {
    forall k | 0 <= k < |formulas| ensures TokenizedFrom(formulas[k], Filter(visited, IsFormulaCell)[k]) {
      assert TokenizedFrom(formulas[k], Filter(visited, IsFormulaCell)[k]);
    }
  }

  lemma ScannedItemsOnSheets(wb: Book, wbData: Book, formulas: seq<Formula>, constants: seq<Variable>)
    requires SheetNames(wbData) == SheetNames(wb)
    requires Collected(formulas, constants, ScannedCells(wb))
    ensures forall k :: 0 <= k < |constants| ==> constants[k].sheet in SheetNames(wbData)
    ensures forall k :: 0 <= k < |formulas| ==> formulas[k].sheet in SheetNames(wbData)
  {
    var fcells, ccells := FormulaCells(wb), ConstantCells(wb);
    ScannedOnSheets(wb, |wb.sheets|);
    forall k | 0 <= k < |constants| ensures constants[k].sheet in SheetNames(wbData) {
      FilterMember(ScannedCells(wb), IsConstantCell, ccells[k]);
    }
    forall k | 0 <= k < |formulas| ensures formulas[k].sheet in SheetNames(wbData) {
      FilterMember(ScannedCells(wb), IsFormulaCell, fcells[k]);
    }
  }

  lemma NamesOnSheets(wb: Book, wbData: Book, names: seq<Name>)
    requires SheetNames(wbData) == SheetNames(wb)
    requires NamedRanges(wb).Ok? && Built(names, NamedRanges(wb).value)
    ensures forall k :: 0 <= k < |names| ==>
      names[k].row.Some? ==> names[k].sheet.Some? && names[k].sheet.value in SheetNames(wbData)
  {
    var specs := NamedRanges(wb).value;
    NamedRangesWellFormed(wb, |wb.definedNames|);
    forall k | 0 <= k < |names|
      ensures names[k].row.Some? ==> names[k].sheet.Some? && names[k].sheet.value in SheetNames(wbData)
    {
      assert WellFormedSpec(wb, specs[k]) && NameFrom(names[k], specs[k]);
    }
  }

  /** Some formula cell leaves no candidates exactly when the formula made from it has none. */
  lemma NoCandidatesAt(cells: seq<Cell>, formulas: seq<Formula>)
    requires |formulas| == |cells|
    requires forall k {:trigger TokenizedFrom(formulas[k], cells[k])} ::
      0 <= k < |formulas| ==> TokenizedFrom(formulas[k], cells[k])
    ensures (exists c :: c in cells && NoCandidates(c)) <==> exists k :: 0 <= k < |formulas| && formulas[k].candidates == []
  {
    if exists c :: c in cells && NoCandidates(c) {
      var c :| c in cells && NoCandidates(c);
      var k :| 0 <= k < |cells| && cells[k] == c;
      assert TokenizedFrom(formulas[k], cells[k]);
      NoCandidatesOf(formulas[k], c);
    }
    if exists k :: 0 <= k < |formulas| && formulas[k].candidates == [] {
      var k :| 0 <= k < |formulas| && formulas[k].candidates == [];
      assert TokenizedFrom(formulas[k], cells[k]);
      NoCandidatesOf(formulas[k], cells[k]);
      assert cells[k] in cells;
    }
  }

  lemma NoCandidatesOf(f: Formula, c: Cell)
    requires TokenizedFrom(f, c)
    ensures NoCandidates(c) <==> f.candidates == []
  {
  }

  lemma ConstantsDone(constants: seq<Variable>, cells: seq<Cell>, names: seq<Name>, wbData: Book)
    requires |constants| == |cells|
    requires forall k :: 0 <= k < |constants| ==> ConstantFrom(constants[k], cells[k])
    requires forall k :: 0 <= k < |constants| ==> ConstantMatched(constants[k], names, wbData, None)
    ensures forall k :: 0 <= k < |constants| ==> ConstantDone(constants[k], cells[k], names, wbData)
  {
    forall k | 0 <= k < |constants| ensures ConstantDone(constants[k], cells[k], names, wbData) {
      CellOnlyLookup(names, cells[k].id, constants[k].coordinate);
    }
  }

  lemma FormulasDone(formulas: seq<Formula>, cells: seq<Cell>, names: seq<Name>, wbData: Book)
    requires |formulas| == |cells|
    requires forall k :: 0 <= k < |formulas| ==> FormulaFrom(formulas[k], cells[k])
    requires forall k {:trigger TokenizedFrom(formulas[k], cells[k])} ::
      0 <= k < |formulas| ==> TokenizedFrom(formulas[k], cells[k])
    requires forall k :: 0 <= k < |formulas| ==> FormulaMatched(formulas[k], names, wbData, None)
    ensures forall k :: 0 <= k < |formulas| ==> FormulaDone(formulas[k], cells[k], names, wbData)
  {
    forall k | 0 <= k < |formulas| ensures FormulaDone(formulas[k], cells[k], names, wbData) {
      CellOnlyLookup(names, cells[k].id, formulas[k].coordinate);
    }
  }

  lemma NamesDone(names: seq<Name>, specs: seq<NameSpec>, formulas: seq<Formula>, wbData: Book)
    requires |names| == |specs|
    requires forall k :: 0 <= k < |formulas| ==> formulas[k].variables == Filter(names, NamedIn(formulas[k].candidates))
    requires forall k :: 0 <= k < |names| ==> NameFrom(names[k], specs[k]) && NameMatched(names[k], UsedNames(formulas), wbData)
    ensures forall k :: 0 <= k < |names| ==> NameDone(names[k], specs[k], formulas, wbData)
  {
    forall k | 0 <= k < |names| ensures NameDone(names[k], specs[k], formulas, wbData) {
      UsedIffCandidate(formulas, names, names[k]);
    }
  }
}
