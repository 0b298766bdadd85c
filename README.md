# Formula cross-referencing core of excel_formula_verification, in Dafny

This project models the extraction and cross-referencing engine of the Excel formula
verification tool, and proves properties of it. The engine reads a workbook and builds
three linked lists of records:

- the **formulas**: cells whose text begins with `=`;
- the **named ranges**: the workbook's defined names. A name on a single cell gives one
  record bound to that cell. A name on a range gives one record per row of the range,
  bound to the row's first cell. A name with no destination gives one global constant;
- the **constants**: cells holding a number or a boolean.

It then matches these records against the file's cached values. Each formula and constant
receives the defined name bound to its cell, and its computed output. Each formula's text
is tokenized, and its candidate names are resolved to defined names. Each defined name
learns whether some formula uses it.

Modules, in dependency order:

- `wrappers.dfy` (`Wrappers`) holds `Option`, `Result` and `Fault`. `Fault` stands for the
  Python exceptions the core can raise: IndexError, KeyError, AttributeError, TypeError.
- `pytext.dfy` (`PyText`) holds the parts of Python `str` the core relies on, over ASCII:
  - `str.isupper` and `str.isdigit`;
  - the regex class `\s`;
  - `startswith` and substring tests;
  - `str(int)`;
  - openpyxl's column letters.
- `seqs.dfy` (`Seqs`) holds order-preserving filtering (a list comprehension) and
  first-match search (`next(...)`), with their lemmas.
- `workbook.dfy` (`Workbook`) is an abstract loaded workbook:
  - sheets, each with a title, `max_row`/`max_column` and a map from (row, column) to a
    value `Str | Int | Bool | Empty`;
  - defined names `(name, localSheetId, destinations, attr_text)`.

  A cell's identity is its (sheet, row, column). Both loads of the file (formula text, and
  cached values only) have this shape.
- `tokenizer.dfy` (`Tokenizer`) holds `parse_value` and `Formula.__parse_function`:
  - the split on `= * / - + ( ) , "` and whitespace;
  - a reference definition `Tokenization` of what the classification loop records;
  - the loop itself as the method `Tokenize`, proved against that definition.
- `entities.dfy` (`Entities`) holds the records as classes `Variable`, `Name` and
  `Formula`. Fields the source never reassigns are `const`. The fields the matching stage
  fills in are `var`: `name`, `output`, `is_used` and the resolved `variables`. The module
  also holds the equality rule `Variable.__eq__` and the lookups that `set_name`,
  `set_output` and `set_is_used` perform.
- `template_file.dfy` (`TemplateFile`) holds the rest:
  - the row-major scan of every sheet;
  - the expansion of defined names;
  - the three matching stages;
  - `process_template_file` over the two loads.

  Each imperative operation is a method proved against a specification function of the
  workbook: `ScannedCells`, `FormulaCells`, `ConstantCells` and `NamedRanges`.

Python behaviour the model reproduces, as the code does it:

- `set_name` compares `n == self` with `n` a `Name` and `self` a `Variable` or a `Formula`.
  The dataclass-generated `Name.__eq__` returns `NotImplemented` for another class, so
  Python applies the reflected `Variable.__eq__`. When `set_name` runs, the item has no
  name yet. So only a defined name bound to the same cell can match, and global constants
  never match. `CellOnlyLookup` proves this.
- `str.isupper` accepts a bare coordinate such as `A1`, and a part made of coordinates and
  characters without case such as `$A$1` or `A1:B3`, so the tokenizer puts such parts
  among the built-ins. The formula `=A1+B1` therefore yields the built-ins `[A1, B1]` and
  no candidate name, not an empty built-in list with two candidates. When the defined
  names expand without error to at least one record, `update_variables` then evaluates
  `v.name in None` and raises TypeError. `CellReferencesAreBuiltIns` proves the first
  half and `CellOnlyFormulaRaises` the second. A sheet-qualified reference such as
  `Sheet2!A1` is different: `!` does not split it, and the lower-case letters of the
  sheet title make it fail `isupper`, so it becomes a candidate name.
  `QualifiedReferenceIsCandidate` proves this.
- Formula text is stripped only twice: once by the scan, once in `__post_init__`.
  Tokenizing happens between the two strips. A cell holding `===1` therefore stores
  `=1`, which still begins with `=`. `FormulaValueKeepsThirdEqualsSign` proves this.
- A falsy value given to a record is replaced by the cell's own value. For a global name
  with empty `attr_text` there is no cell, which raises AttributeError.

## Model

| member | source | states |
|---|---|---|
| Tokenizer.ParseValue | src/variable.py:7-11 | the input is the result with one `=` put back in front if it began with `=`, and is the result itself otherwise: exactly one leading `=` is removed, nothing else changes |
| Tokenizer.Split | src/variable.py:87 | `re.split` on the separator class always yields at least one part; `SplitJoin` and `SplitPartsClean` fix the parts exactly |
| Tokenizer.Tokenization | src/variable.py:85-109 | the reference definition of what `__parse_function` records, stated without the loop: the capital parts, the first all-digit part as the flag, and the remaining kept parts as formats or candidates; `Tokenize` is proved equal to it |
| Tokenizer.SplitJoin | src/variable.py:87 | the split yields one more part than there are separator characters, empty parts included, and joining the parts with those separators gives back the text |
| Tokenizer.SplitPartsClean | src/variable.py:87 | no part contains a separator character |
| Tokenizer.Tokenize | src/variable.py:84-109 | the classification loop computes exactly `Tokenization`: the table flag is `'[' in text`, the built-ins are the `isupper` parts in order, the digit flag is set by the first all-digit part, formats and candidate names are the remaining kept parts in order |
| Tokenizer.TokenPartition | src/variable.py:92-109 | every part that is not skipped lands in exactly one place, counted with multiplicity: the digit flag (the first all-digit part), the format list or the candidate names |
| Tokenizer.LaterDigitsAreCandidates | src/variable.py:95-109 | an all-digit part sets the flag; any all-digit part other than the first one is among the candidate names |
| Tokenizer.DigitsKept | src/variable.py:93-98 | an all-digit part is neither skipped nor a format fragment |
| Tokenizer.TableReferenceExample | src/variable.py:85 | a structured reference `SUM(Table1[Col])` sets the table flag |
| Tokenizer.CellReferencesAreBuiltIns | src/variable.py:90-93 | `A1+B1` gives built-ins `[A1, B1]`, no digit flag, no formats and no candidate names |
| Tokenizer.QualifiedReferenceIsCandidate | src/variable.py:87-109 | `Sheet2!A1` stays one part, fails `isupper` because of the sheet title's lower-case letters, and is the only candidate name: no built-ins, no digit flag, no formats |
| Tokenizer.SplitWhole | src/variable.py:87 | a text without a separator character is split into one part, the text itself |
| Workbook.CoordinateIsUpper | src/variable.py:90 | every cell coordinate passes `str.isupper`, so a bare coordinate such as `A1` that forms a part of its own is taken for a built-in |
| PyText.ColumnLetters | src/variable.py:35 | `get_column_letter`, which `cell.coordinate` uses for its column part: a non-empty string of capital letters |
| PyText.ColumnLettersExamples | src/variable.py:35 | the letters are bijective base 26: 1, 26, 27, 52, 53, 702 and 703 give A, Z, AA, AZ, BA, ZZ and AAA |
| Workbook.SheetNamed | src/template_file.py:81 | `wb[title]` is a sheet of the workbook with that title, and is a KeyError exactly when no sheet has that title |
| Seqs.FilterSelects | src/variable.py:90 | a comprehension keeps, in their original order and with duplicates, exactly the elements that pass the test: they sit at strictly increasing positions, and every passing position is among them |
| Seqs.FilterMember | src/variable.py:112 | an element is kept exactly when it is in the input and passes the test |
| Entities.Equal | src/variable.py:48-56 | `Variable.__eq__`: items that both have a cell are equal exactly when it is the same cell, otherwise their names decide; its consequences are stated in `EqualIdentity` |
| Entities.EqualIdentity | src/variable.py:48-56 | an item equals anything on its own cell whatever the names; items on different cells are never equal, even with the same name; an item without a cell is compared by name only; the rule is symmetric, so the reflected call answers as the direct one would |
| Entities.PostInitValue | src/variable.py:25-32 | storing a value fails, with AttributeError, exactly when the given value is falsy and there is no cell to read instead |
| Entities.ConstantValue | src/variable.py:29-32 | a number or boolean cell stores its `str` unchanged |
| Entities.FormulaValue | src/variable.py:29-32 | a formula cell with text `t`, built from `t[1..]`, stores `t[1..]` with one more leading `=` removed; this holds also when `t` is just `=` and the cell's own text is read |
| Entities.FormulaValueKeepsThirdEqualsSign | src/variable.py:29-30 | a cell holding `===1` stores `=1` |
| Entities.Variable.constructor | src/variable.py:25-37 | a constant record holds its sheet, its cell and the stored value; coordinate, row and column are those of the cell; name and output are unset |
| Entities.Variable.SetName | src/variable.py:39-40 | the new name is the name of the first defined name equal to the item, or else its coordinate; nothing else changes |
| Entities.Variable.SetOutput | src/variable.py:42-46 | the new output is `str` of the cached value at the item's sheet, row and column; nothing else changes |
| Entities.NameLookup | src/variable.py:40 | the `next(...)` over the defined names with the coordinate as default; `NameLookupFirst` states what it returns |
| Entities.NameLookupFirst | src/variable.py:40 | if no defined name equals the item, the result is the default; otherwise it is the name of the first equal one |
| Entities.CellOnlyLookup | src/variable.py:54-56 | for an item not yet named, the lookup finds the first defined name bound to the same cell, else the coordinate; global constants and names of other cells never match |
| Entities.Name.constructor | src/variable.py:59-66 | a defined-name record holds name, sheet, cell, scope and global flag as given, and the stored value; `is_used` and output are unset |
| Entities.Name.SetIsUsed | src/variable.py:68-69 | the new `is_used` is whether the name is among the names of all formulas' variables |
| Entities.Name.SetOutput | src/variable.py:42-46 | a name bound to a cell gets `str` of its cached value; a global constant gets None |
| Entities.UsedIffCandidate | src/variable.py:68-69 | once every formula's variables are resolved, a defined name is used exactly when some formula's tokenizer listed its name |
| Entities.Formula.constructor | src/variable.py:80-82 | the tokens are `Tokenization` of the given text, taken before the text is stored; the stored value is computed as for a constant; variables, name and output are unset |
| Entities.Formula.SetName | src/variable.py:39-40 | as for a constant |
| Entities.Formula.SetOutput | src/variable.py:42-46 | as for a constant |
| Entities.Formula.UpdateVariables | src/variable.py:111-112 | the variables become the defined names whose name is a candidate, in defined-name order; with no candidates (None) and a non-empty name list this is the TypeError, and nothing changes |
| TemplateFile.GridOrder | src/template_file.py:114-118 | the working range is visited row by row: cell (r, c) comes at position (r - 1) * max_column + (c - 1) |
| TemplateFile.ScannedOnSheets | src/template_file.py:112-113 | every visited cell lies on one of the workbook's sheets |
| TemplateFile.CellsPartition | src/template_file.py:122-135 | each visited cell is skipped, taken as a formula or taken as a constant, and exactly one of these |
| TemplateFile.ConstantsAreValues | src/template_file.py:133-135 | the constants are exactly the visited cells holding a number or a boolean |
| TemplateFile.GetFormulasAndConstants | src/template_file.py:101-137 | the two lists correspond one to one and in visiting order to the formula cells and the constant cells; each formula is tokenized from its text minus the `=`; all records are new and distinct |
| TemplateFile.ScanSheet | src/template_file.py:113-118 | one sheet's working range is added to the lists, row by row |
| TemplateFile.ScanRow | src/template_file.py:118 | one row is added to the lists, left to right |
| TemplateFile.Visit | src/template_file.py:122-135 | one cell: skipped, or its new `Formula` or `Variable` is appended to its list |
| TemplateFile.Scope | src/template_file.py:73 | the scope is "Workbook" without a sheet index, else that sheet's title; an index past the last sheet is an IndexError |
| TemplateFile.LookupDefined | src/template_file.py:74 | `defined_names.get(name, localSheetId)`: the first definition with that name and sheet index, or none; `LookupFindsDefinition` states that it always finds one |
| TemplateFile.LookupFindsDefinition | src/template_file.py:74 | the lookup by name and scope always finds a definition with that key; this is the definition itself when no earlier one has the same key |
| TemplateFile.DestinationNames | src/template_file.py:81-92 | the names of one destination: one for a single cell; one per row, bound to the row's first cell, for a block; none for a block without rows; IndexError for a block with rows but no columns |
| TemplateFile.Expand | src/template_file.py:80-96 | one definition's names: the global constant (AttributeError on empty text) without a destination, else the first destination's names, KeyError when its sheet is missing; `ExpandShape` states the shapes |
| TemplateFile.ExpandShape | src/template_file.py:80-96 | no destination gives exactly one global name without sheet or cell, holding the definition's text; a single cell gives one name bound to it; a block of k rows gives k names in row order on the block's first column; all share the definition's name and scope |
| TemplateFile.FirstDestinationOnly | src/template_file.py:80-92 | only the first destination is read; this follows from the definition of `Expand`, which reads `dests[0]` alone because both branches of the loop break |
| TemplateFile.FailureStops | src/template_file.py:71-96 | once a definition raises, the whole expansion raises that fault |
| TemplateFile.NamedRangesWellFormed | src/template_file.py:80-96 | every expanded name can be constructed: a global has no cell and non-empty text; any other is bound to a cell of an existing sheet, which is its sheet |
| TemplateFile.GetNamedRanges | src/template_file.py:64-98 | raises exactly when `NamedRanges` does, with the same fault; otherwise returns new, distinct records one to one and in order with `NamedRanges` |
| TemplateFile.NewNames | src/template_file.py:71-96 | one definition's records, or its fault |
| TemplateFile.RowNames | src/template_file.py:89-91 | one record per row of the block, bound to the row's first cell |
| TemplateFile.MatchConstants | src/template_file.py:48-50 | each constant is named, then given its output |
| TemplateFile.MatchFormulas | src/template_file.py:52-55 | each formula is named, given its output and resolved; the stage fails exactly when there are defined names and some formula has no candidates |
| TemplateFile.MatchNames | src/template_file.py:57-59 | each defined name gets `is_used` from the resolved formulas, then its output |
| TemplateFile.MatchConstant | src/template_file.py:49-50 | one constant: named after the first defined name equal to it, else its coordinate, then given its cached output |
| TemplateFile.MatchFormula | src/template_file.py:53-55 | one formula: named and given its output as a constant; it fails exactly when there are defined names and it has no candidates, and otherwise its variables are resolved |
| TemplateFile.MatchOutputData | src/template_file.py:31-61 | the three stages in the fixed order; names are marked used only after every formula is resolved; when the formula stage raises, the third stage does not run and no name's `is_used` or output changes |
| TemplateFile.FailureAt | src/template_file.py:52-55 | after the scan, the pipeline's fault is TypeError exactly when there are defined names and some scanned formula has no candidates, and there is none otherwise |
| TemplateFile.CellOnlyFormulaRaises | src/template_file.py:55 | a workbook whose defined names expand without error to at least one record, and that holds a formula `=A1+B1`, ends with TypeError |
| TemplateFile.ProcessTemplateFile | src/template_file.py:6-28 | fails exactly as `Failure` says: a fault from the defined names, else TypeError when there are defined names and a formula without candidates. Otherwise the three lists match the formula cells, the expanded names and the constant cells in order. Each formula and constant is named after the first defined name bound to its cell, else its coordinate, and has its cached output. Each formula's variables are the defined names it lists. Each name is used exactly when some formula lists it |

## Left out

- Loading the file with `openpyxl.load_workbook`, the `PermissionError` exit and
  `wb.close()` are not part of this model. Both loads of the file are given to
  `ProcessTemplateFile` as values.
- TemplateFile.ProcessTemplateFile: requires that the two loads have the same sheet
  titles, since they are one file loaded twice. A KeyError in `set_output` from a sheet
  missing in the cached-values load is therefore not modelled.
- Entities.Variable.SetOutput, Entities.Formula.SetOutput and Entities.Name.SetOutput:
  require that the record's sheet exists in the cached-values load, for the same reason.
- TemplateFile.MatchConstants, TemplateFile.MatchFormulas, TemplateFile.MatchNames and
  TemplateFile.MatchOutputData: require duplicate-free lists. The pipeline only passes
  freshly built, distinct records. A list naming one object twice would have it updated
  twice.
- TemplateFile.MatchFormulas: the state after the TypeError is left unspecified, because
  the exception ends the pipeline.
- openpyxl details are given as data:
  - the list of destinations is given with each definition, and parsing `attr_text` into
    destinations is not modelled;
  - whole-row and whole-column references are not modelled;
  - merged cells are not modelled;
  - `ws[rng]` and `ws.cell` create missing cells, which grows `max_row`/`max_column`;
    this is not modelled, and a sheet's extent is fixed.
- Cell values are limited to text, integers, booleans and None. Floats and dates are
  not modelled; Python's `str` of them cannot be expressed without floating point.
- `localSheetId` is a natural number. Python's negative indexing of `sheetnames` is not
  modelled.
- Text is ASCII: `isupper`, `isdigit` and `\s` are not modelled on other characters.
- Python's `None` for the tokenizer's lists and flag is modelled as an empty list and
  `false`. The tokenizer never produces an empty list, so no case is conflated.
- The tokenizer's name list (`Formula.variables` before `update_variables`) is modelled
  as the constant field `candidates`. The resolved list of `Name` records is the field
  `variables`. Calling `update_variables` a second time is not modelled.
- `Variable` and `Formula` always have a cell: the core creates neither without one. A
  `Name` may lack one.
- Class inheritance (`Name` and `Formula` deriving from `Variable`) is written out: the
  three classes repeat the common fields and share module-level functions. `Formula.__eq__`
  only delegates to `Variable.__eq__`, modelled once as `Entities.Equal`. The
  dataclass-generated `Name.__eq__` is never used for the comparisons the core makes.
- The loop over a definition's destinations always breaks in its first iteration. It is
  modelled as reading the first destination.
- The document generation (`src/table.py`, `src/verification_document.py`,
  `src/utils.py`), the command line (`src/main.py`), the decorator in
  `src/__init__.py` and the tests are not part of this model.
