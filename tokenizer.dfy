/** `parse_value` and the formula tokenizer `Formula.__parse_function` of variable.py. */
module Tokenizer {
  import opened Wrappers
  import opened PyText
  import opened Seqs

  /** parse_value: removes one leading '=' when present, and nothing else. */
  function ParseValue(value: string): (r: string)
    ensures value == if StartsWith(value, "=") then "=" + r else r
  {
    if StartsWith(value, "=") then value[1..] else value
  }

  // The character class the formula text is split on: = * / - + ( ) , the double quote, and \s.
  predicate IsSeparator(c: char) {
    c == '=' || c == '*' || c == '/' || c == '-' || c == '+' ||
    c == '(' || c == ')' || c == ',' || c == '"' || IsSpaceChar(c)
  }

  /** `re.split` on that class: one part before, between and after every
      separator character, empty parts included. */
  function Split(s: string): (parts: seq<string>)
    ensures |parts| >= 1
  {
    if s == [] then [[]]
    else
      var rest := Split(s[1..]);
      if IsSeparator(s[0]) then [[]] + rest else [[s[0]] + rest[0]] + rest[1..]
  }

  /** The separator characters of `s`, in order. */
  function Separators(s: string): string {
    Filter(s, IsSeparator)
  }

  /** Interleaves the parts with the separators: parts[0] seps[0] parts[1] ... */
  function Join(parts: seq<string>, seps: string): string
    requires |parts| == |seps| + 1
    decreases |seps|
  {
    if seps == [] then parts[0] else parts[0] + [seps[0]] + Join(parts[1..], seps[1..])
  }

  lemma JoinPrefix(x: string, parts: seq<string>, seps: string)
    requires |parts| == |seps| + 1
    ensures Join([x + parts[0]] + parts[1..], seps) == x + Join(parts, seps)
  {
    var q := [x + parts[0]] + parts[1..];
    assert q[1..] == parts[1..];
  }

  /** The split yields one more part than there are separators, and joining the parts
      with the separators they were cut at gives back the text. */
  lemma {:induction false} SplitJoin(s: string)
    ensures |Split(s)| == |Separators(s)| + 1
    ensures Join(Split(s), Separators(s)) == s
  {
    if s != [] {
      SplitJoin(s[1..]);
      var rest := Split(s[1..]);
      if IsSeparator(s[0]) {
        assert Separators(s) == [s[0]] + Separators(s[1..]);
        assert ([[]] + rest)[1..] == rest;
      } else {
        assert Separators(s) == Separators(s[1..]);
        JoinPrefix([s[0]], rest, Separators(s[1..]));
        assert [s[0]] + s[1..] == s;
      }
    }
  }

  /** No part contains a separator character. */
  lemma {:induction false} SplitPartsClean(s: string)
    ensures forall k, i :: 0 <= k < |Split(s)| && 0 <= i < |Split(s)[k]| ==> !IsSeparator(Split(s)[k][i])
  {
    if s != [] {
      SplitPartsClean(s[1..]);
      var rest := Split(s[1..]);
      if !IsSeparator(s[0]) {
        forall k, i | 0 <= k < |Split(s)| && 0 <= i < |Split(s)[k]| ensures !IsSeparator(Split(s)[k][i]) {
          if k == 0 {
            if i > 0 {
              assert Split(s)[0][i] == rest[0][i - 1];
            }
          } else {
            assert Split(s)[k] == rest[k];
          }
        }
      }
    }
  }

  /** Parts the classification loop passes over: all-capital tokens (the built-ins)
      and the four listed filler tokens. */
  predicate IsIgnored(part: string) { part == "" || part == " " || part == "&" || part == "'" }
  predicate IsSkipped(part: string) { IsUpper(part) || IsIgnored(part) }

  /** A number-format fragment: contains '#', in a formula that calls TEXT. */
  predicate IsFormat(part: string, text: string) { '#' in part && Contains(text, "TEXT") }

  function Kept(): string -> bool { (p: string) => !IsSkipped(p) }
  function FormatTest(text: string): string -> bool { (p: string) => !IsSkipped(p) && IsFormat(p, text) }
  function CandidateTest(text: string): string -> bool { (p: string) => !IsSkipped(p) && !IsFormat(p, text) }

  /** What `__parse_function` records about a formula text. `hasDigits` false stands
      for the source's None; an empty `formats` or `variables` for its None. */
  datatype Tokens = Tokens(
    inTable: bool,
    builtIns: seq<string>,
    hasDigits: bool,
    formats: seq<string>,
    variables: seq<string>)

  /** The classification stated independently of the loop: built-ins are the capital
      parts; the flag is set by the first all-digit part, which is consumed; format parts
      and candidate names are the remaining kept parts, each in order. */
  function Tokenization(text: string): Tokens {
    var parts := Split(text);
    var first := FirstIndex(parts, IsDigit);
    Tokens(
      inTable := '[' in text,
      builtIns := Filter(parts, IsUpper),
      hasDigits := first.Some?,
      formats := Filter(parts, FormatTest(text)),
      variables :=
        match first
        case None => Filter(parts, CandidateTest(text))
        case Some(d) => Filter(parts[..d], CandidateTest(text)) + Filter(parts[d + 1..], CandidateTest(text)))
  }

  lemma DigitsKept(part: string, text: string)
    requires IsDigit(part)
    ensures !IsSkipped(part) && !IsFormat(part, text)
  {
    assert IsDigitChar(part[0]);
    forall i | 0 <= i < |part| ensures !IsUpperChar(part[i]) && part[i] != '#' {
      assert IsDigitChar(part[i]);
    }
  }

  /** One pass of the classification loop over `parts[i]`, with `d` the position of the
      first all-digit part (or |parts| when there is none): what it adds to the format
      list, to the name list, and whether the digit flag is set afterwards. */
  lemma TokenStep(parts: seq<string>, value: string, d: nat, i: nat, hasDigits: bool)
    requires i < |parts| && d <= |parts| && (hasDigits <==> d < i)
    requires forall j :: 0 <= j < d ==> !IsDigit(parts[j])
    requires d < |parts| ==> IsDigit(parts[d])
    ensures IsUpper(parts[i]) || IsIgnored(parts[i]) ==>
      (d < i + 1 <==> hasDigits) &&
      Filter(parts[..i + 1], FormatTest(value)) == Filter(parts[..i], FormatTest(value)) &&
      FilterWithout(parts, d, i + 1, CandidateTest(value)) == FilterWithout(parts, d, i, CandidateTest(value))
    ensures !(IsUpper(parts[i]) || IsIgnored(parts[i])) && !hasDigits && IsDigit(parts[i]) ==>
      d < i + 1 &&
      Filter(parts[..i + 1], FormatTest(value)) == Filter(parts[..i], FormatTest(value)) &&
      FilterWithout(parts, d, i + 1, CandidateTest(value)) == FilterWithout(parts, d, i, CandidateTest(value))
    ensures (!(IsUpper(parts[i]) || IsIgnored(parts[i])) && !(!hasDigits && IsDigit(parts[i])) &&
      '#' in parts[i] && Contains(value, "TEXT")) ==>
      (d < i + 1 <==> hasDigits) &&
      Filter(parts[..i + 1], FormatTest(value)) == Filter(parts[..i], FormatTest(value)) + [parts[i]] &&
      FilterWithout(parts, d, i + 1, CandidateTest(value)) == FilterWithout(parts, d, i, CandidateTest(value))
    ensures (!(IsUpper(parts[i]) || IsIgnored(parts[i])) && !(!hasDigits && IsDigit(parts[i])) &&
      !('#' in parts[i] && Contains(value, "TEXT"))) ==>
      (d < i + 1 <==> hasDigits) &&
      Filter(parts[..i + 1], FormatTest(value)) == Filter(parts[..i], FormatTest(value)) &&
      FilterWithout(parts, d, i + 1, CandidateTest(value)) == FilterWithout(parts, d, i, CandidateTest(value)) + [parts[i]]
  {
    var part := parts[i];
    FilterSnoc(parts, 0, i, FormatTest(value));
    FilterWithoutStep(parts, d, i, CandidateTest(value));
    if IsDigit(part) {
      DigitsKept(part, value);
    }
    if i == d {
      DigitsKept(part, value);
    }
  }

  /** Formula.__parse_function: splits the text, collects the built-ins, then walks the
      parts once, setting the digit flag and appending to the format and name lists. */
  method Tokenize(value: string) returns (t: Tokens)
    ensures t == Tokenization(value)
  {
    var inTable := '[' in value;
    var parts := Split(value);
    var builtIns := Filter(parts, IsUpper);
    var hasDigits := false;
    var formats: seq<string> := [];
    var variables: seq<string> := [];
    ghost var first := FirstIndex(parts, IsDigit);
    ghost var d := if first.Some? then first.value else |parts|;
    for i := 0 to |parts|
      invariant hasDigits <==> d < i
      invariant formats == Filter(parts[..i], FormatTest(value))
      invariant variables == FilterWithout(parts, d, i, CandidateTest(value))
    {
      var part := parts[i];
      // Each branch appeals to the step lemma's clause for its own case.
      if IsUpper(part) || IsIgnored(part) {
        TokenStep(parts, value, d, i, hasDigits);
        continue;
      } else if !hasDigits && IsDigit(part) {
        TokenStep(parts, value, d, i, hasDigits);
        hasDigits := true;
      } else if '#' in part && Contains(value, "TEXT") {
        TokenStep(parts, value, d, i, hasDigits);
        formats := formats + [part];
      } else {
        TokenStep(parts, value, d, i, hasDigits);
        variables := variables + [part];
      }
    }
    FilterWithoutAll(parts, d, CandidateTest(value));
    assert parts[..|parts|] == parts;
    t := Tokens(inTable, builtIns, hasDigits, formats, variables);
  }

  /** The first all-digit part as a multiset: what the digit flag consumes. */
  function FlagPart(parts: seq<string>): multiset<string> {
    match FirstIndex(parts, IsDigit)
    case Some(d) => multiset{parts[d]}
    case None => multiset{}
  }

  /** Every part the loop does not pass over lands in exactly one place: the digit
      flag (the first all-digit part), the format list, or the candidate names. */
  lemma TokenPartition(text: string)
    ensures multiset(Filter(Split(text), Kept())) ==
      multiset(Tokenization(text).formats) + multiset(Tokenization(text).variables) + FlagPart(Split(text))
  {
    KeptSplit(text);
    CandidatesSplit(text);
  }

  lemma KeptSplit(text: string)
    ensures multiset(Filter(Split(text), Kept())) ==
      multiset(Filter(Split(text), FormatTest(text))) + multiset(Filter(Split(text), CandidateTest(text)))
  {
    FilterUnion(Split(text), FormatTest(text), CandidateTest(text), Kept());
  }

  lemma CandidatesSplit(text: string)
    ensures multiset(Filter(Split(text), CandidateTest(text))) ==
      multiset(Tokenization(text).variables) + FlagPart(Split(text))
  {
    var parts, cand := Split(text), CandidateTest(text);
    var first := FirstIndex(parts, IsDigit);
    if first.Some? {
      var d := first.value;
      DigitsKept(parts[d], text);
      FilterAround(parts, d, cand);
    }
  }

  /** Only the first all-digit part sets the flag; every later one is a candidate name. */
  lemma LaterDigitsAreCandidates(text: string, j: nat)
    requires j < |Split(text)| && IsDigit(Split(text)[j])
    ensures var parts, t := Split(text), Tokenization(text);
      t.hasDigits &&
      (j != FirstIndex(parts, IsDigit).value ==> parts[j] in t.variables)
  {
    var parts := Split(text);
    var d := FirstIndex(parts, IsDigit).value;
    DigitsKept(parts[j], text);
    if j != d {
      assert j > d;
      assert parts[d + 1..][j - d - 1] == parts[j];
      FilterMember(parts[d + 1..], CandidateTest(text), parts[j]);
    }
  }

  /** A structured reference such as `SUM(Table1[Col])` sets the table flag. */
  lemma TableReferenceExample()
    ensures Tokenization("SUM(Table1[Col])").inTable
  {
    assert "SUM(Table1[Col])"[10] == '[';
  }

  /** `A1+B1`: both references pass `str.isupper`, so both are built-ins and no
      candidate name is left. */
  lemma CellReferencesAreBuiltIns()
    ensures Tokenization("A1+B1") == Tokens(false, ["A1", "B1"], false, [], [])
  {
    SplitExample();
    CellReferenceParts();
  }

  /** A sheet-qualified reference stays one part, since `!` is no separator; the
      lower-case letters of the sheet title make it fail `isupper`, so it is a
      candidate name and not a built-in. */
  lemma QualifiedReferenceIsCandidate()
    ensures Tokenization("Sheet2!A1") == Tokens(false, [], false, [], ["Sheet2!A1"])
  {
    QualifiedReferenceSplit();
    QualifiedReferenceParts();
  }

  lemma QualifiedReferenceSplit()
    ensures Split("Sheet2!A1") == ["Sheet2!A1"]
  {
    var text := "Sheet2!A1";
    forall i | 0 <= i < |text| ensures !IsSeparator(text[i]) {
      assert text[i] in "Sheet2!A1";
    }
    SplitWhole(text);
  }

  lemma QualifiedReferenceParts()
    ensures var parts := ["Sheet2!A1"];
      Filter(parts, IsUpper) == [] && FirstIndex(parts, IsDigit) == None &&
      Filter(parts, FormatTest("Sheet2!A1")) == [] && Filter(parts, CandidateTest("Sheet2!A1")) == parts
  {
    var text := "Sheet2!A1";
    var parts := [text];
    assert !IsUpper(text) by { assert IsLowerChar(text[1]); }
    assert !IsDigit(text) by { assert !IsDigitChar(text[0]); }
    assert !('#' in text) by {
      forall i | 0 <= i < |text| ensures text[i] != '#' {
        assert text[i] in "Sheet2!A1";
      }
    }
    assert parts[1..] == [];
  }

  /** A text without a separator character is a single part. */
  lemma {:induction false} SplitWhole(s: string)
    requires forall i :: 0 <= i < |s| ==> !IsSeparator(s[i])
    ensures Split(s) == [s]
  {
    if s != [] {
      SplitWhole(s[1..]);
      assert !IsSeparator(s[0]);
      assert [s[0]] + s[1..] == s;
    }
  }

  lemma CellReferenceParts()
    ensures var parts := ["A1", "B1"];
      Filter(parts, IsUpper) == parts && FirstIndex(parts, IsDigit) == None &&
      Filter(parts, FormatTest("A1+B1")) == [] && Filter(parts, CandidateTest("A1+B1")) == []
  {
    var parts := ["A1", "B1"];
    assert IsUpper("A1") by { assert IsUpperChar("A1"[0]); }
    assert IsUpper("B1") by { assert IsUpperChar("B1"[0]); }
    assert !IsDigit("A1") by { assert !IsDigitChar("A1"[0]); }
    assert !IsDigit("B1") by { assert !IsDigitChar("B1"[0]); }
    assert parts[1..] == ["B1"] && parts[1..][1..] == [];
    assert Filter(parts, IsUpper) == parts;
    assert FirstIndex(parts, IsDigit) == None;
    assert Filter(parts, FormatTest("A1+B1")) == [];
    assert Filter(parts, CandidateTest("A1+B1")) == [];
  }

  lemma SplitExample()
    ensures Split("A1+B1") == ["A1", "B1"]
  {
    assert Split("") == [""];
    assert "1"[1..] == "";
    assert ['1'] + "" == "1";
    assert Split("1") == ["1"];
    assert "B1"[1..] == "1";
    assert ['B'] + "1" == "B1";
    assert Split("B1") == ["B1"];
    assert "+B1"[1..] == "B1";
    assert Split("+B1") == ["", "B1"];
    assert "1+B1"[1..] == "+B1";
    assert ['1'] + "" == "1";
    assert Split("1+B1") == ["1", "B1"];
    assert "A1+B1"[1..] == "1+B1";
    assert ['A'] + "1" == "A1";
  }
}
