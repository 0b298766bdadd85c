/** The record classes of variable.py: `Variable` (a constant cell), `Name` (a defined
    name) and `Formula`, with the equality, name lookup and output lookup they share. */
module Entities {
  import opened Wrappers
  import opened PyText
  import opened Seqs
  import opened Workbook
  import opened Tokenizer

  /** What `Variable.__eq__` compares: the cell an item occupies, if any, and its name
      (None until `set_name` has run). */
  datatype Identity = Identity(cell: Option<CellId>, name: Option<string>)

  /** `Variable.__eq__`: two items that both occupy a cell are equal exactly when it is
      the same cell; otherwise their names decide. */
  predicate Equal(a: Identity, b: Identity) {
    if a.cell.Some? && b.cell.Some? then a.cell == b.cell else a.name == b.name
  }

  /** The identity rule: an item equals anything on its own cell whatever the names; two
      items on different cells are never equal, even with the same name; an item without
      a cell is compared by name only. The rule is symmetric, so the reflected call made
      for `n == self` answers as `self == n` would. */
  lemma EqualIdentity(a: Identity, b: Identity)
    ensures a.cell.Some? && a.cell == b.cell ==> Equal(a, b)
    ensures a.cell.Some? && b.cell.Some? && a.cell != b.cell ==> !Equal(a, b)
    ensures a.cell.None? || b.cell.None? ==> (Equal(a, b) <==> a.name == b.name)
    ensures Equal(a, b) == Equal(b, a)
  {
  }

  /** The value `Variable.__post_init__` stores: a truthy given value is converted with
      `str` and loses one leading '='; a falsy one is replaced by the cell's own value,
      which for an item without a cell is an AttributeError. */
  function PostInitValue(value: CellValue, cell: Option<Cell>): (r: Result<string>)
    ensures r.Err? <==> !Truthy(value) && cell.None?
    ensures r.Err? ==> r.fault == AttributeError
  {
    if Truthy(value) then Ok(ParseValue(PyStr(value)))
    else if cell.Some? then Ok(ParseValue(PyStr(cell.value.value)))
    else Err(AttributeError)
  }

  /** A constant cell (a number or a boolean) keeps its value's `str` unchanged: no such
      text begins with '=', and a falsy value is read back from the same cell. */
  lemma ConstantValue(c: Cell)
    requires !c.value.Str? && !c.value.Empty?
    ensures PostInitValue(c.value, Some(c)) == Ok(PyStr(c.value))
  {
    var text := PyStr(c.value);
    match c.value
    case Int(i) =>
      if i >= 0 {
        assert IsDigitChar(text[0]);
      }
      assert text[0] != '=';
    case Bool(b) =>
      assert text[0] != '=';
  }

  /** A formula cell holding `text` is constructed from `text[1..]`; the stored value is
      that remainder with one more leading '=' removed, also when the remainder is empty
      and the cell's own text is read instead. */
  lemma FormulaValue(c: Cell)
    requires c.value.Str? && StartsWith(c.value.s, "=")
    ensures PostInitValue(Str(c.value.s[1..]), Some(c)) == Ok(ParseValue(c.value.s[1..]))
  {
    var text := c.value.s;
    if text[1..] == [] {
      assert text == "=";
    }
  }

  /** Only two '=' are removed in all: a cell holding "===1" stores "=1". */
  lemma FormulaValueKeepsThirdEqualsSign(c: Cell)
    requires c.value == Str("===1")
    ensures PostInitValue(Str(c.value.s[1..]), Some(c)) == Ok("=1")
  {
    FormulaValue(c);
    assert c.value.s[1..] == "==1";
    assert "==1"[..1] == "=";
    assert "==1"[1..] == "=1";
  }

  /** A constant cell: `Variable(sheet=..., cell=..., value=cell.value)`. */
  class Variable {
    const sheet: string
    const cell: Cell
    const coordinate: string := Coordinate(cell.id)
    const row: Index := cell.id.row
    const col: Index := cell.id.col
    const value: string
    var name: Option<string>
    var output: Option<string>

    constructor (sheet: string, cell: Cell, value: CellValue)
      ensures this.sheet == sheet && this.cell == cell
      ensures this.value == PostInitValue(value, Some(cell)).value
      ensures name.None? && output.None?
    {
      this.sheet := sheet;
      this.cell := cell;
      this.value := PostInitValue(value, Some(cell)).value;
      name := None;
      output := None;
    }

    function Id(): Identity
      reads this
    {
      Identity(Some(cell.id), name)
    }

    /** `set_name`: the first defined name equal to this item, else the coordinate. */
    method SetName(names: seq<Name>)
      modifies this
      ensures name == Some(NameLookup(names, old(Id()), coordinate))
      ensures output == old(output)
    {
      name := Some(NameLookup(names, Id(), coordinate));
    }

    /** `set_output`: the text of the cached value at this item's cell. */
    method SetOutput(wbData: Book)
      requires sheet in SheetNames(wbData)
      modifies this
      ensures output == Some(OutputAt(wbData, sheet, row, col))
      ensures name == old(name)
    {
      output := Some(OutputAt(wbData, sheet, row, col));
    }
  }

  /** A defined name: one cell or one row of a range (`cell` present), or a global
      constant (`cell` absent, `value` taken from the definition's text). */
  class Name {
    const name: string
    const sheet: Option<string>
    const cell: Option<Cell>
    const coordinate: Option<string> := if cell.Some? then Some(Coordinate(cell.value.id)) else None
    const row: Option<Index> := if cell.Some? then Some(cell.value.id.row) else None
    const col: Option<Index> := if cell.Some? then Some(cell.value.id.col) else None
    const value: string
    const scope: string
    const isGlobal: bool
    var isUsed: Option<bool>
    var output: Option<string>

    constructor (name: string, sheet: Option<string>, cell: Option<Cell>, value: CellValue,
                 scope: string, isGlobal: bool)
      requires PostInitValue(value, cell).Ok?
      ensures this.name == name && this.sheet == sheet && this.cell == cell
      ensures this.scope == scope && this.isGlobal == isGlobal
      ensures this.value == PostInitValue(value, cell).value
      ensures isUsed.None? && output.None?
    {
      this.name := name;
      this.sheet := sheet;
      this.cell := cell;
      this.value := PostInitValue(value, cell).value;
      this.scope := scope;
      this.isGlobal := isGlobal;
      isUsed := None;
      output := None;
    }

    function Id(): Identity {
      Identity(if cell.Some? then Some(cell.value.id) else None, Some(name))
    }

    /** `set_is_used`: whether this name is among the names of the variables the
        formulas have been resolved to. */
    method SetIsUsed(formulas: seq<Formula>)
      modifies this
      ensures isUsed == Some(name in UsedNames(formulas))
      ensures output == old(output)
    {
      isUsed := Some(name in UsedNames(formulas));
    }

    /** `set_output`: the text of the cached value at the name's cell; None for a name
        without a cell. */
    method SetOutput(wbData: Book)
      requires row.Some? ==> sheet.Some? && sheet.value in SheetNames(wbData)
      modifies this
      ensures output == NameOutput(this, wbData)
      ensures isUsed == old(isUsed)
    {
      if row.Some? {
        output := Some(OutputAt(wbData, sheet.value, row.value, col.value));
      } else {
        output := None;
      }
    }
  }

  /** A formula cell: `Formula(sheet=..., cell=..., value=text[1..])`. The tokenizer's
      outcome is fixed at construction; `candidates` is its name list (empty standing
      for None), and `variables` the defined names they resolve to. */
  class Formula {
    const sheet: string
    const cell: Cell
    const coordinate: string := Coordinate(cell.id)
    const row: Index := cell.id.row
    const col: Index := cell.id.col
    const value: string
    const inTable: bool
    const builtIns: seq<string>
    const hasDigits: bool
    const formats: seq<string>
    const candidates: seq<string>
    var variables: seq<Name>
    var name: Option<string>
    var output: Option<string>

    /** `Formula.__post_init__`: tokenizes the given text, then stores it as
        `Variable.__post_init__` does. */
    constructor (sheet: string, cell: Cell, value: string)
      ensures this.sheet == sheet && this.cell == cell
      ensures Tokens(inTable, builtIns, hasDigits, formats, candidates) == Tokenization(value)
      ensures this.value == PostInitValue(Str(value), Some(cell)).value
      ensures variables == [] && name.None? && output.None?
    {
      var t := Tokenize(value);
      this.sheet := sheet;
      this.cell := cell;
      inTable := t.inTable;
      builtIns := t.builtIns;
      hasDigits := t.hasDigits;
      formats := t.formats;
      candidates := t.variables;
      this.value := PostInitValue(Str(value), Some(cell)).value;
      variables := [];
      name := None;
      output := None;
    }

    function Id(): Identity
      reads this
    {
      Identity(Some(cell.id), name)
    }

    function Parsed(): Tokens {
      Tokens(inTable, builtIns, hasDigits, formats, candidates)
    }

    /** `set_name`, as for a constant. */
    method SetName(names: seq<Name>)
      modifies this
      ensures name == Some(NameLookup(names, old(Id()), coordinate))
      ensures variables == old(variables) && output == old(output)
    {
      name := Some(NameLookup(names, Id(), coordinate));
    }

    /** `set_output`, as for a constant. */
    method SetOutput(wbData: Book)
      requires sheet in SheetNames(wbData)
      modifies this
      ensures output == Some(OutputAt(wbData, sheet, row, col))
      ensures variables == old(variables) && name == old(name)
    {
      output := Some(OutputAt(wbData, sheet, row, col));
    }

    /** `update_variables`: keeps, in order, the defined names whose name is a candidate.
        With no candidates (None) and at least one name, the membership test raises a
        TypeError: `ok` is false and nothing changes. */
    method UpdateVariables(names: seq<Name>) returns (ok: bool)
      modifies this
      ensures ok <==> !(candidates == [] && names != [])
      ensures ok ==> variables == Filter(names, NamedIn(candidates))
      ensures !ok ==> variables == old(variables)
      ensures name == old(name) && output == old(output)
    {
      if candidates == [] && names != [] {
        return false;
      }
      variables := Filter(names, NamedIn(candidates));
      return true;
    }
  }

  function Matches(self: Identity): Name -> bool {
    (n: Name) => Equal(self, n.Id())
  }

  /** `set_name`'s lookup: the name of the first defined name equal to the item, or the
      default (the item's coordinate) when there is none. */
  function NameLookup(names: seq<Name>, self: Identity, default: string): string {
    match FirstIndex(names, Matches(self))
    case Some(k) => names[k].name
    case None => default
  }

  /** The lookup yields the default when no defined name equals the item, and otherwise
      the name of the first one that does. */
  lemma NameLookupFirst(names: seq<Name>, self: Identity, default: string)
    ensures var r := NameLookup(names, self, default);
      ((forall k :: 0 <= k < |names| ==> !Equal(self, names[k].Id())) ==> r == default) &&
      ((exists k :: 0 <= k < |names| && Equal(self, names[k].Id())) ==>
        exists k :: 0 <= k < |names| && Equal(self, names[k].Id()) && r == names[k].name &&
          forall j :: 0 <= j < k ==> !Equal(self, names[j].Id()))
  {
    match FirstIndex(names, Matches(self))
    case Some(k) =>
      assert Matches(self)(names[k]);
    case None =>
      if exists k :: 0 <= k < |names| && Equal(self, names[k].Id()) {
        var k :| 0 <= k < |names| && Equal(self, names[k].Id());
        assert Matches(self)(names[k]);
      }
  }

  function BoundTo(id: CellId): Name -> bool {
    (n: Name) => n.cell.Some? && n.cell.value.id == id
  }

  /** The reference definition of what `set_name` finds for a cell item: the first
      defined name bound to that very cell, else the coordinate. */
  function CellLookup(names: seq<Name>, id: CellId, default: string): string {
    match FirstIndex(names, BoundTo(id))
    case Some(k) => names[k].name
    case None => default
  }

  /** Before `set_name` an item has no name, so only defined names bound to the same cell
      can equal it: global constants never match, and neither do names of other cells. */
  lemma CellOnlyLookup(names: seq<Name>, id: CellId, default: string)
    ensures NameLookup(names, Identity(Some(id), None), default) == CellLookup(names, id, default)
  {
    forall n | n in names ensures Matches(Identity(Some(id), None))(n) == BoundTo(id)(n) {
    }
    FirstIndexAgree(names, Matches(Identity(Some(id), None)), BoundTo(id));
  }

  /** `str(wb[sheet].cell(row, column).value)` in the cached-values load. */
  function OutputAt(wbData: Book, sheet: string, row: Index, col: Index): string
    requires sheet in SheetNames(wbData)
  {
    PyStr(ValueAt(SheetNamed(wbData, sheet).value, row, col))
  }

  function NameOutput(n: Name, wbData: Book): Option<string>
    requires n.row.Some? ==> n.sheet.Some? && n.sheet.value in SheetNames(wbData)
  {
    if n.row.Some? then Some(OutputAt(wbData, n.sheet.value, n.row.value, n.col.value)) else None
  }

  function NamedIn(candidates: seq<string>): Name -> bool {
    (n: Name) => n.name in candidates
  }

  function NamesOf(vs: seq<Name>): (r: seq<string>)
    ensures |r| == |vs| && forall i :: 0 <= i < |vs| ==> r[i] == vs[i].name
  {
    seq(|vs|, i requires 0 <= i < |vs| => vs[i].name)
  }

  /** `[v.name for i in items for v in i.variables]`. */
  function UsedNames(formulas: seq<Formula>): seq<string>
    reads formulas
  {
    if formulas == [] then [] else NamesOf(formulas[0].variables) + UsedNames(formulas[1..])
  }

  /** Once every formula's variables are resolved against `names`, a defined name is used
      exactly when some formula's tokenizer listed its name. */
  lemma {:induction false} UsedIffCandidate(formulas: seq<Formula>, names: seq<Name>, n: Name)
    requires forall f :: f in formulas ==> f.variables == Filter(names, NamedIn(f.candidates))
    requires n in names
    ensures n.name in UsedNames(formulas) <==> exists f :: f in formulas && n.name in f.candidates
  {
    if formulas != [] {
      var f := formulas[0];
      UsedIffCandidate(formulas[1..], names, n);
      FilterMember(names, NamedIn(f.candidates), n);
      if n.name in NamesOf(f.variables) {
        var i :| 0 <= i < |f.variables| && NamesOf(f.variables)[i] == n.name;
        FilterMember(names, NamedIn(f.candidates), f.variables[i]);
      }
      if n.name in UsedNames(formulas[1..]) {
        var g :| g in formulas[1..] && n.name in g.candidates;
        assert g in formulas;
      }
      if exists g :: g in formulas[1..] && n.name in g.candidates {
        assert n.name in UsedNames(formulas[1..]);
      }
      if n.name in f.candidates {
        assert n.name in NamesOf(f.variables);
      }
      assert forall g :: g in formulas ==> g == f || g in formulas[1..];
    }
  }
}
