/**
  FormulaTokenizer.Tokenize: one left-to-right pass over the formula. A
  formula with no upper-case letter is read in all-lower mode, where a letter
  pair becomes a two-letter symbol only if one of its letters is not an element
  on its own; otherwise a lower-case letter after a letter joins it when the
  pair is a catalog key. A thrown exception is an `Err` carrying its message.
*/
module FormulaTokenization {
  import opened Ascii
  import opened Outcomes
  import opened ChemicalElements
  import opened Tokens
  import opened Scanning
  import opened ScanProperties
  import opened ScanSteps

  /** No letter of `s` is upper-case (digits, parentheses and the rest do not matter). */
  predicate NoUpperLetters(s: string) {
    forall k | 0 <= k < |s| :: IsLetter(s[k]) ==> IsLower(s[k])
  }

  /** The letter policy the tokenizer picks for `formula`. */
  function ModeFor(formula: string): LetterPolicy {
    if NoUpperLetters(formula) then AllLowerMode else MixedCaseMode
  }

  function InvalidCharacterMessage(c: char): string { "Invalid character '" + [c] + "' in formula." }

  /**
    What Tokenize returns: the scan under the formula's mode. It fails exactly
    when the formula holds a character that is not a letter, digit, parenthesis
    or whitespace, naming the first such character; on success the symbols
    spell the formula's letters in order, up to case.
  */
  function Tokenization(cat: Catalog, formula: string): (r: Result<seq<Token>, string>)
    ensures r.Err? <==> FirstForeign(formula) < |formula|
    ensures r.Err? ==> r.error == InvalidCharacterMessage(formula[FirstForeign(formula)])
    ensures r.Ok? ==> Fold(ElementText(r.value)) == Fold(Letters(formula))
    ensures r.Ok? ==> AllWellFormed(cat, ModeFor(formula), r.value)
  {
    var p := ModeFor(formula);
    FormulaScanFailsOnlyOnForeign(cat, p, formula);
    match Scan(cat, p, formula)
    case Ok(ts) =>
      ScanConservesLetters(cat, p, formula);
      ScanTokensWellFormed(cat, p, formula);
      Ok(ts)
    case Err(e) => Err(InvalidCharacterMessage(e.c))
  }

  /** The `allLower` flag: stops at the first letter that is not lower-case. */
  method IsAllLower(formula: string) returns (allLower: bool)
    ensures allLower == NoUpperLetters(formula)
  {
    allLower := true;
    var j := 0;
    while j < |formula|
      invariant j <= |formula|
      invariant forall k | 0 <= k < j :: IsLetter(formula[k]) ==> IsLower(formula[k])
    {
      if IsLetter(formula[j]) && !IsLower(formula[j]) {
        allLower := false;
        break;
      }
      j := j + 1;
    }
  }

  /**
    The letter branch of Tokenize: the symbol read at position `i` and the
    number of letters it takes, which is the scan's letter step under the
    formula's mode.
  */
  method ReadSymbol(cat: Catalog, formula: string, i: nat, allLower: bool) returns (symbol: string, width: nat)
    requires i < |formula| && IsLetter(formula[i])
    requires allLower == NoUpperLetters(formula)
    ensures i + width <= |formula|
    ensures LetterStep(cat, ModeFor(formula), formula[i..]) == Some(Step([ElementToken(symbol)], width))
  {
    ghost var s := formula[i..];
    var c := formula[i];
    assert s[0] == c;
    assert |s| >= 2 ==> s[1] == formula[i + 1];
    if allLower {
      ghost var pair := |s| >= 2 && IsLetter(s[1]) &&
        (Upper1(s[0]) !in cat.elements || Upper1(s[1]) !in cat.elements) &&
        [ToUpper(s[0]), s[1]] in cat.elements;
      if i + 1 < |formula| && IsLetter(formula[i + 1]) {
        var first := [ToUpper(c)];
        var second := [ToUpper(formula[i + 1])];
        var twoLetter := first + [formula[i + 1]];
        var firstValid := first in cat.elements;
        var secondValid := second in cat.elements;
        var twoLetterValid := twoLetter in cat.elements;
        assert twoLetter == [ToUpper(s[0]), s[1]];
        if (!firstValid || !secondValid) && twoLetterValid {
          return twoLetter, 2;
        }
      }
      assert !pair;
      symbol, width := [ToUpper(c)], 1;
    } else {
      ghost var pair := |s| >= 2 && IsLetter(s[1]) && IsLower(s[1]) && [ToUpper(s[0]), s[1]] in cat.elements;
      symbol := [ToUpper(c)];
      if i + 1 < |formula| && IsLetter(formula[i + 1]) && IsLower(formula[i + 1]) {
        var twoLetter := symbol + [formula[i + 1]];
        assert twoLetter == [ToUpper(s[0]), s[1]];
        if twoLetter in cat.elements {
          return twoLetter, 2;
        }
      }
      assert !pair;
      width := 1;
    }
  }

  /** FormulaTokenizer.Tokenize. */
  method Tokenize(cat: Catalog, formula: string) returns (r: Result<seq<Token>, string>)
    ensures r == Tokenization(cat, formula)
  {
    var tokens: seq<Token> := [];
    var i := 0;
    var allLower := IsAllLower(formula);
    ghost var p := ModeFor(formula);
    Start(cat, p, formula);
    while i < |formula|
      invariant i <= |formula|
      invariant Scan(cat, p, formula) == Prepend(tokens, Scan(cat, p, formula[i..]))
    {
      var c := formula[i];
      var piece: seq<Token>, next: nat;
      if c == '(' {
        piece, next := [OpenToken], i + 1;
      } else if c == ')' {
        piece, next := [CloseToken], i + 1;
      } else if IsLetter(c) {
        var symbol, width := ReadSymbol(cat, formula, i, allLower);
        piece, next := [ElementToken(symbol)], i + width;
      } else if IsDigit(c) {
        var number;
        number, next := ReadNumber(formula, i);
        piece := [Token(Number, number)];
      } else if IsWhiteSpace(c) {
        piece, next := [], i + 1;
      } else {
        StopsAt(cat, p, formula, i, tokens);
        return Err(InvalidCharacterMessage(c));
      }
      Consume(cat, p, formula, i, next, tokens, piece);
      tokens, i := tokens + piece, next;
    }
    Finish(cat, p, formula, tokens);
    return Ok(tokens);
  }
}
