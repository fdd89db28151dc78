/**
  FormulaParser.ParseAndCalculateMolarMass: tokenize, validate, then fold the
  tokens into per-element counts with the group stack. A tokenizer exception
  or a validation error ends the parse with that message. The molar mass and
  the breakdown lines are computed from the counts in floating point and are
  not part of this model; the result carries the counts instead.
*/
module FormulaParsing {
  import opened Outcomes
  import opened ChemicalElements
  import opened Tokens
  import opened ScanProperties
  import opened FormulaValidation
  import opened FormulaTokenization
  import opened GroupEvaluation
  import opened ElementLookup

  datatype ParseResult = Success(counts: Counts) | Failure(error: string)

  /**
    What ParseAndCalculateMolarMass returns. It succeeds exactly when the
    formula has no foreign character and its tokens are balanced and name only
    catalog keys; the first failing stage supplies the message; on success the
    counts are the evaluation of the tokens, over exactly the symbols of the
    formula, each of which the symbol lookup finds.
  */
  function Parse(cat: Catalog, formula: string): (r: ParseResult)
    ensures r.Success? <==>
              && FirstForeign(formula) == |formula|
              && Balanced(Tokenization(cat, formula).value)
              && AllKnown(cat, Tokenization(cat, formula).value)
    ensures Tokenization(cat, formula).Err? ==> r == Failure(Tokenization(cat, formula).error)
    ensures Tokenization(cat, formula).Ok? && ValidationError(cat, Tokenization(cat, formula).value).Some? ==>
              r == Failure(ValidationError(cat, Tokenization(cat, formula).value).value)
    ensures r.Success? ==> r.counts == Eval(Tokenization(cat, formula).value)
    ensures r.Success? ==> r.counts.Keys == ElementSymbols(Tokenization(cat, formula).value)
    ensures r.Success? ==> forall k | k in r.counts :: k in cat.elements && FindBySymbol(cat, Some(k)) == Some(cat.elements[k])
  {
    match Tokenization(cat, formula)
    case Err(message) => Failure(message)
    case Ok(ts) =>
      match ValidationError(cat, ts)
      case Some(message) => Failure(message)
      case None =>
        EvalKeys(ts);
        ElementSymbolsKnown(cat, ts);
        Success(Eval(ts))
  }

  /** FormulaParser.ParseAndCalculateMolarMass, without the floating-point mass. */
  method ParseAndCalculateMolarMass(cat: Catalog, formula: string) returns (result: ParseResult)
    ensures result == Parse(cat, formula)
  {
    var tokenized := Tokenize(cat, formula);
    if tokenized.Err? {
      return Failure(tokenized.error);
    }
    var tokens := tokenized.value;
    var valid, validationError := Validate(cat, tokens);
    if !valid {
      return Failure(validationError.value);
    }
    var elementCounts := CountElements(tokens);
    EvalKeys(tokens);
    ElementSymbolsKnown(cat, tokens);
    // The lookup loop of the mass computation: after validation every symbol is found.
    var pending := elementCounts.Keys;
    while pending != {}
      invariant pending <= elementCounts.Keys
      decreases |pending|
    {
      var symbol :| symbol in pending;
      var element := FindBySymbol(cat, Some(symbol));
      if element.None? {
        assert false;
      }
      pending := pending - {symbol};
    }
    return Success(elementCounts);
  }
}
