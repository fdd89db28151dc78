/**
  SmartFormulaParser: three tokenizers tried in order (exact case, section by
  section, Titlecase two-letter-greedy), each of which must also pass
  ValidateTokens; the first that succeeds is evaluated with the group stack and
  names how the formula was read.
*/
module SmartFormulaParsing {
  import opened Ascii
  import opened Outcomes
  import opened ChemicalElements
  import opened Tokens
  import opened Scanning
  import opened ScanProperties
  import opened ScanSteps
  import opened FormulaValidation
  import opened GroupEvaluation

  const ExactMatchLabel := "Exact match"
  const SectionLabel := "Section-based parsing"
  const FallbackLabel := "Fallback combinations"
  const NoMethodError := "Could not parse formula using any method"

  /** The source's ParseResult: `Success` with the counts and `ParsedFormula`, or the error. */
  datatype SmartResult = Parsed(parsedFormula: string, counts: Counts) | NotParsed(error: string)

  predicate IsSmartPolicy(p: LetterPolicy) { p.ExactCase? || p.SectionBest? || p.TitleGreedy? }

  /**
    What one strategy yields: the scan's tokens when the scan succeeds and the
    tokens validate. Accepted tokens are balanced, name catalog keys only, and
    spell the input's letters up to case; a foreign character rules the
    strategy out.
  */
  function Attempt(cat: Catalog, p: LetterPolicy, input: string): (r: Option<seq<Token>>)
    requires IsSmartPolicy(p)
    ensures r.Some? <==> Scan(cat, p, input).Ok? && Balanced(Scan(cat, p, input).value)
    ensures r.Some? ==> Balanced(r.value) && AllKnown(cat, r.value)
    ensures r.Some? ==> Fold(ElementText(r.value)) == Fold(Letters(input))
    ensures FirstForeign(input) < |input| ==> r.None?
    ensures r.Some? ==> r.value == Scan(cat, p, input).value
  {
    ForeignFails(cat, p, input);
    match Scan(cat, p, input)
    case Err(_) => None
    case Ok(ts) =>
      SmartScanTokensKnown(cat, p, input);
      ScanConservesLetters(cat, p, input);
      if Balanced(ts) && AllKnown(cat, ts) then Some(ts) else None
  }

  /**
    What ParseFormula returns: the first strategy that succeeds decides both
    the label and the counts, which are the evaluation of that strategy's
    tokens and name catalog keys only; when no
    strategy succeeds, in particular when the input has a foreign character,
    the fixed error is returned.
  */
  function SmartParse(cat: Catalog, input: string): (r: SmartResult)
    ensures r.NotParsed? <==>
              Attempt(cat, ExactCase, input).None? && Attempt(cat, SectionBest, input).None? &&
              Attempt(cat, TitleGreedy, input).None?
    ensures r.NotParsed? ==> r.error == NoMethodError
    ensures r.Parsed? ==> (r.parsedFormula == ExactMatchLabel <==> Attempt(cat, ExactCase, input).Some?)
    ensures r.Parsed? ==> (r.parsedFormula == SectionLabel <==>
              Attempt(cat, ExactCase, input).None? && Attempt(cat, SectionBest, input).Some?)
    ensures r.Parsed? ==> (r.parsedFormula == FallbackLabel <==>
              Attempt(cat, ExactCase, input).None? && Attempt(cat, SectionBest, input).None?)
    ensures Attempt(cat, ExactCase, input).Some? ==>
              r == Parsed(ExactMatchLabel, Eval(Attempt(cat, ExactCase, input).value))
    ensures Attempt(cat, ExactCase, input).None? && Attempt(cat, SectionBest, input).Some? ==>
              r == Parsed(SectionLabel, Eval(Attempt(cat, SectionBest, input).value))
    ensures Attempt(cat, ExactCase, input).None? && Attempt(cat, SectionBest, input).None? &&
            Attempt(cat, TitleGreedy, input).Some? ==>
              r == Parsed(FallbackLabel, Eval(Attempt(cat, TitleGreedy, input).value))
    ensures r.Parsed? ==> r.counts.Keys <= cat.elements.Keys
    ensures FirstForeign(input) < |input| ==> r == NotParsed(NoMethodError)
  {
    var exact, section, fallback :=
      Attempt(cat, ExactCase, input), Attempt(cat, SectionBest, input), Attempt(cat, TitleGreedy, input);
    if exact.Some? then Parsed(ExactMatchLabel, Counted(cat, exact.value))
    else if section.Some? then Parsed(SectionLabel, Counted(cat, section.value))
    else if fallback.Some? then Parsed(FallbackLabel, Counted(cat, fallback.value))
    else NotParsed(NoMethodError)
  }

  /** The counts of validated tokens: exactly their symbols, all of them catalog keys. */
  function Counted(cat: Catalog, ts: seq<Token>): (r: Counts)
    requires Balanced(ts) && AllKnown(cat, ts)
    ensures r.Keys == ElementSymbols(ts) && r.Keys <= cat.elements.Keys
  {
    EvalKeys(ts);
    ElementSymbolsKnown(cat, ts);
    Eval(ts)
  }

  // ---------------------------------------------------------------------------
  // ValidateTokens and CalculateMolarMass.

  /** SmartFormulaParser.ValidateTokens: FormulaValidator's pass without the messages. */
  method ValidateTokens(cat: Catalog, ts: seq<Token>) returns (ok: bool)
    ensures ok <==> Balanced(ts) && AllKnown(cat, ts)
  {
    var depth: nat := 0;
    for i := 0 to |ts|
      invariant Check(cat, ts[i..], depth) == ValidationError(cat, ts)
    {
      assert ts[i..][1..] == ts[i + 1..];
      var token := ts[i];
      if token.kind.OpenParen? {
        depth := depth + 1;
      } else if token.kind.CloseParen? {
        if depth == 0 {
          return false;
        }
        depth := depth - 1;
      } else if token.kind.Element? {
        if token.value !in cat.elements {
          return false;
        }
      }
    }
    return depth == 0;
  }

  /**
    The counting part of SmartFormulaParser.CalculateMolarMass: the same group
    stack as FormulaParser. Every counted symbol is a catalog key, so the
    dictionary lookups of the mass loop cannot fail.
  */
  method CalculateMolarMass(cat: Catalog, ts: seq<Token>) returns (counts: Counts)
    requires Balanced(ts) && AllKnown(cat, ts)
    ensures counts == Counted(cat, ts)
    ensures counts.Keys <= cat.elements.Keys
  {
    counts := CountElements(ts);
  }

  // ---------------------------------------------------------------------------
  // The letter branches of TryExactMatch and TryAllCombinations.

  /** TryExactMatch's letter branch: the verbatim pair, else the verbatim letter, else failure. */
  method ReadExactSymbol(cat: Catalog, input: string, i: nat) returns (found: bool, symbol: string, width: nat)
    requires i < |input| && IsLetter(input[i])
    ensures found <==> LetterStep(cat, ExactCase, input[i..]).Some?
    ensures found ==> i + width <= |input| &&
                      LetterStep(cat, ExactCase, input[i..]) == Some(Step([ElementToken(symbol)], width))
  {
    ghost var s := input[i..];
    var c := input[i];
    assert s[0] == c;
    if i + 1 < |input| && IsLetter(input[i + 1]) {
      var twoLetter := input[i..i + 2];
      assert s[..2] == twoLetter && s[1] == input[i + 1];
      if twoLetter in cat.elements {
        return true, twoLetter, 2;
      }
    }
    assert !(|s| >= 2 && IsLetter(s[1]) && s[..2] in cat.elements);
    var singleLetter := [c];
    if singleLetter in cat.elements {
      return true, singleLetter, 1;
    }
    return false, [], 0;
  }

  /** TryAllCombinations' letter branch: the Titlecase pair, else the upper-case letter, else failure. */
  method ReadTitleSymbol(cat: Catalog, input: string, i: nat) returns (found: bool, symbol: string, width: nat)
    requires i < |input| && IsLetter(input[i])
    ensures found <==> LetterStep(cat, TitleGreedy, input[i..]).Some?
    ensures found ==> i + width <= |input| &&
                      LetterStep(cat, TitleGreedy, input[i..]) == Some(Step([ElementToken(symbol)], width))
  {
    ghost var s := input[i..];
    var c := input[i];
    assert s[0] == c;
    if i + 1 < |input| && IsLetter(input[i + 1]) {
      var twoLetter := [ToUpper(c)] + [ToLower(input[i + 1])];
      assert s[1] == input[i + 1] && twoLetter == Title(s[0], s[1]);
      if twoLetter in cat.elements {
        return true, twoLetter, 2;
      }
    }
    assert !(|s| >= 2 && IsLetter(s[1]) && Title(s[0], s[1]) in cat.elements);
    var singleLetter := [ToUpper(c)];
    if singleLetter in cat.elements {
      return true, singleLetter, 1;
    }
    return false, [], 0;
  }

  // ---------------------------------------------------------------------------
  // ParseSection and its three sub-strategies.

  /** `pre` put in front of a successful result. */
  function Extend(pre: seq<Token>, r: Option<seq<Token>>): Option<seq<Token>> {
    if r.Some? then Some(pre + r.value) else None
  }

  lemma ExtendCons(pre: seq<Token>, t: Token, r: Option<seq<Token>>)
    ensures Extend(pre, Cons(t, r)) == Extend(pre + [t], r)
  {
    if r.Some? {
      assert pre + ([t] + r.value) == (pre + [t]) + r.value;
    }
  }

  lemma ExtendEmpty(r: Option<seq<Token>>)
    ensures Extend([], r) == r
  {
    if r.Some? {
      assert [] + r.value == r.value;
    }
  }

  /** The loop's account of a sub-strategy on `section` after `i` letters, with `tokens` so far. */
  lemma ExtendStep(whole: Option<seq<Token>>, tokens: seq<Token>, t: Token,
                   here: Option<seq<Token>>, rest: Option<seq<Token>>)
    requires whole == Extend(tokens, here) && here == Cons(t, rest)
    ensures whole == Extend(tokens + [t], rest)
  {
    ExtendCons(tokens, t, rest);
  }

  /** TryParseSectionExact. */
  method TryParseSectionExact(cat: Catalog, section: string) returns (ok: bool, tokens: seq<Token>)
    ensures ok <==> SectionExact(cat, section).Some?
    ensures ok ==> tokens == SectionExact(cat, section).value
  {
    tokens := [];
    if section in cat.elements {
      tokens := tokens + [ElementToken(section)];
      return true, tokens;
    }
    return false, tokens;
  }

  /** TryParseSectionTwoLetterFirst. */
  method TryParseSectionTwoLetterFirst(cat: Catalog, section: string) returns (ok: bool, tokens: seq<Token>)
    ensures ok <==> TwoLetterFirst(cat, section).Some?
    ensures ok ==> tokens == TwoLetterFirst(cat, section).value
  {
    tokens := [];
    var i := 0;
    assert section[0..] == section;
    ExtendEmpty(TwoLetterFirst(cat, section));
    while i < |section|
      invariant i <= |section|
      invariant TwoLetterFirst(cat, section) == Extend(tokens, TwoLetterFirst(cat, section[i..]))
    {
      ghost var s := section[i..];
      assert s[0] == section[i] && s[1..] == section[i + 1..];
      if i + 1 < |section| {
        var twoLetter := section[i..i + 2];
        assert s[..2] == twoLetter && s[2..] == section[i + 2..];
        if twoLetter in cat.elements {
          ExtendStep(TwoLetterFirst(cat, section), tokens, ElementToken(twoLetter),
                     TwoLetterFirst(cat, s), TwoLetterFirst(cat, section[i + 2..]));
          tokens := tokens + [ElementToken(twoLetter)];
          i := i + 2;
          continue;
        } else {
          var properCase := [ToUpper(twoLetter[0])] + [ToLower(twoLetter[1])];
          assert properCase == Title(s[0], s[1]);
          if properCase in cat.elements {
            ExtendStep(TwoLetterFirst(cat, section), tokens, ElementToken(properCase),
                       TwoLetterFirst(cat, s), TwoLetterFirst(cat, section[i + 2..]));
            tokens := tokens + [ElementToken(properCase)];
            i := i + 2;
            continue;
          }
        }
      }
      assert !(|s| >= 2 && s[..2] in cat.elements) && !(|s| >= 2 && Title(s[0], s[1]) in cat.elements);
      var singleLetter := [ToUpper(section[i])];
      if singleLetter in cat.elements {
        ExtendStep(TwoLetterFirst(cat, section), tokens, ElementToken(singleLetter),
                   TwoLetterFirst(cat, s), TwoLetterFirst(cat, section[i + 1..]));
        tokens := tokens + [ElementToken(singleLetter)];
        i := i + 1;
        continue;
      }
      assert TwoLetterFirst(cat, s).None?;
      return false, tokens;
    }
    assert section[i..] == [] && tokens + [] == tokens;
    return true, tokens;
  }

  /** TryParseSectionSingleLetterFirst. */
  method TryParseSectionSingleLetterFirst(cat: Catalog, section: string) returns (ok: bool, tokens: seq<Token>)
    ensures ok <==> SingleLetterFirst(cat, section).Some?
    ensures ok ==> tokens == SingleLetterFirst(cat, section).value
  {
    tokens := [];
    var i := 0;
    assert section[0..] == section;
    ExtendEmpty(SingleLetterFirst(cat, section));
    while i < |section|
      invariant i <= |section|
      invariant SingleLetterFirst(cat, section) == Extend(tokens, SingleLetterFirst(cat, section[i..]))
    {
      ghost var s := section[i..];
      assert s[0] == section[i] && s[1..] == section[i + 1..];
      var singleLetter := [ToUpper(section[i])];
      if singleLetter in cat.elements {
        ExtendStep(SingleLetterFirst(cat, section), tokens, ElementToken(singleLetter),
                   SingleLetterFirst(cat, s), SingleLetterFirst(cat, section[i + 1..]));
        tokens := tokens + [ElementToken(singleLetter)];
        i := i + 1;
        continue;
      }
      if i + 1 < |section| {
        var twoLetter := section[i..i + 2];
        assert s[..2] == twoLetter && s[2..] == section[i + 2..];
        if twoLetter in cat.elements {
          ExtendStep(SingleLetterFirst(cat, section), tokens, ElementToken(twoLetter),
                     SingleLetterFirst(cat, s), SingleLetterFirst(cat, section[i + 2..]));
          tokens := tokens + [ElementToken(twoLetter)];
          i := i + 2;
          continue;
        } else {
          var properCase := [ToUpper(twoLetter[0])] + [ToLower(twoLetter[1])];
          assert properCase == Title(s[0], s[1]);
          if properCase in cat.elements {
            ExtendStep(SingleLetterFirst(cat, section), tokens, ElementToken(properCase),
                       SingleLetterFirst(cat, s), SingleLetterFirst(cat, section[i + 2..]));
            tokens := tokens + [ElementToken(properCase)];
            i := i + 2;
            continue;
          }
        }
      }
      assert SingleLetterFirst(cat, s).None?;
      return false, tokens;
    }
    assert section[i..] == [] && tokens + [] == tokens;
    return true, tokens;
  }

  /** The scan's section step at `i`, given the run of letters `input[i..end]` and its candidates. */
  lemma SectionStepAt(cat: Catalog, input: string, i: nat, end: nat, cs: seq<seq<Token>>)
    requires i < end <= |input| && IsLetter(input[i])
    requires LetterRunLength(input[i..]) == end - i && input[i..][..end - i] == input[i..end]
    requires cs == Candidates(cat, input[i..end])
    ensures cs == [] ==> LetterStep(cat, SectionBest, input[i..]).None?
    ensures cs != [] ==> LetterStep(cat, SectionBest, input[i..]) == Some(Step(Choose(cs, input[i..end]), end - i))
  {
    assert input[i..][0] == input[i];
  }

  /** The `strategies` list of ParseSection: each sub-strategy's tokens, when it succeeds, in the order tried. */
  method CollectStrategies(cat: Catalog, section: string) returns (strategies: seq<seq<Token>>)
    ensures strategies == Candidates(cat, section)
  {
    ghost var e, t, f := SectionExact(cat, section), TwoLetterFirst(cat, section), SingleLetterFirst(cat, section);
    strategies := [];
    var exactOk, exactTokens := TryParseSectionExact(cat, section);
    if exactOk {
      strategies := strategies + [exactTokens];
    }
    assert strategies == (if e.Some? then [e.value] else []);
    var twoOk, twoLetterTokens := TryParseSectionTwoLetterFirst(cat, section);
    if twoOk {
      strategies := strategies + [twoLetterTokens];
    }
    assert strategies == (if e.Some? then [e.value] else []) + (if t.Some? then [t.value] else []);
    var singleOk, singleLetterTokens := TryParseSectionSingleLetterFirst(cat, section);
    if singleOk {
      strategies := strategies + [singleLetterTokens];
    }
  }

  /** The `end` loop of ParseSection: the end of the maximal run of letters that starts at `i`. */
  method SectionEnd(input: string, i: nat) returns (end: nat)
    requires i < |input| && IsLetter(input[i])
    ensures i < end <= |input|
    ensures LetterRunLength(input[i..]) == end - i
    ensures input[i..][..end - i] == input[i..end]
  {
    end := i;
    while end < |input| && IsLetter(input[end])
      invariant i <= end <= |input|
      invariant forall k | i <= k < end :: IsLetter(input[k])
    {
      end := end + 1;
    }
    SectionAt(input, i, end);
  }

  /**
    ParseSection: the maximal run of letters from `i` is tokenized by each
    sub-strategy and one candidate is chosen; `next` is the new value of the
    `ref` index, which moves past the run only on success.
  */
  method ParseSection(cat: Catalog, input: string, i: nat) returns (sectionTokens: Option<seq<Token>>, next: nat)
    requires i < |input| && IsLetter(input[i])
    ensures sectionTokens.None? <==> LetterStep(cat, SectionBest, input[i..]).None?
    ensures sectionTokens.None? ==> next == i
    ensures sectionTokens.Some? ==> i + LetterRunLength(input[i..]) == next <= |input|
    ensures sectionTokens.Some? ==> LetterStep(cat, SectionBest, input[i..]) == Some(Step(sectionTokens.value, next - i))
  {
    var start := i;
    var end := SectionEnd(input, i);
    var section := input[start..end];
    var strategies := CollectStrategies(cat, section);
    SectionStepAt(cat, input, i, end, strategies);
    if |strategies| == 0 {
      return None, i;
    }
    // The preference rule is a LINQ query over the candidates.
    var bestStrategy := Choose(strategies, section);
    return Some(bestStrategy), end;
  }

  // ---------------------------------------------------------------------------
  // The three tokenizers.

  /** TryExactMatch. */
  method TryExactMatch(cat: Catalog, input: string) returns (ok: bool, tokens: seq<Token>)
    ensures ok <==> Attempt(cat, ExactCase, input).Some?
    ensures ok ==> tokens == Attempt(cat, ExactCase, input).value
  {
    tokens := [];
    var i := 0;
    ghost var p := ExactCase;
    Start(cat, p, input);
    while i < |input|
      invariant i <= |input|
      invariant Scan(cat, p, input) == Prepend(tokens, Scan(cat, p, input[i..]))
    {
      var c := input[i];
      var piece: seq<Token>, next: nat;
      if c == '(' {
        piece, next := [OpenToken], i + 1;
      } else if c == ')' {
        piece, next := [CloseToken], i + 1;
      } else if IsDigit(c) {
        var number;
        number, next := ReadNumber(input, i);
        piece := [Token(Number, number)];
      } else if IsLetter(c) {
        var found, symbol, width := ReadExactSymbol(cat, input, i);
        if !found {
          NoSymbolStops(cat, p, input, i, tokens);
          return false, tokens;
        }
        piece, next := [ElementToken(symbol)], i + width;
      } else if IsWhiteSpace(c) {
        piece, next := [], i + 1;
      } else {
        StopsAt(cat, p, input, i, tokens);
        return false, tokens;
      }
      Consume(cat, p, input, i, next, tokens, piece);
      tokens, i := tokens + piece, next;
    }
    Finish(cat, p, input, tokens);
    SmartScanTokensKnown(cat, p, input);
    ok := ValidateTokens(cat, tokens);
  }

  /** TrySectionBasedParsing. */
  method TrySectionBasedParsing(cat: Catalog, input: string) returns (ok: bool, tokens: seq<Token>)
    ensures ok <==> Attempt(cat, SectionBest, input).Some?
    ensures ok ==> tokens == Attempt(cat, SectionBest, input).value
  {
    tokens := [];
    var i := 0;
    ghost var p := SectionBest;
    Start(cat, p, input);
    while i < |input|
      invariant i <= |input|
      invariant Scan(cat, p, input) == Prepend(tokens, Scan(cat, p, input[i..]))
    {
      var c := input[i];
      var piece: seq<Token>, next: nat;
      if c == '(' {
        piece, next := [OpenToken], i + 1;
      } else if c == ')' {
        piece, next := [CloseToken], i + 1;
      } else if IsDigit(c) {
        var number;
        number, next := ReadNumber(input, i);
        piece := [Token(Number, number)];
      } else if IsLetter(c) {
        var sectionTokens;
        sectionTokens, next := ParseSection(cat, input, i);
        if sectionTokens.None? {
          NoSymbolStops(cat, p, input, i, tokens);
          return false, tokens;
        }
        piece := sectionTokens.value;
      } else if IsWhiteSpace(c) {
        piece, next := [], i + 1;
      } else {
        StopsAt(cat, p, input, i, tokens);
        return false, tokens;
      }
      Consume(cat, p, input, i, next, tokens, piece);
      tokens, i := tokens + piece, next;
    }
    Finish(cat, p, input, tokens);
    SmartScanTokensKnown(cat, p, input);
    ok := ValidateTokens(cat, tokens);
  }

  /** TryAllCombinations. */
  method TryAllCombinations(cat: Catalog, input: string) returns (ok: bool, tokens: seq<Token>)
    ensures ok <==> Attempt(cat, TitleGreedy, input).Some?
    ensures ok ==> tokens == Attempt(cat, TitleGreedy, input).value
  {
    tokens := [];
    var i := 0;
    ghost var p := TitleGreedy;
    Start(cat, p, input);
    while i < |input|
      invariant i <= |input|
      invariant Scan(cat, p, input) == Prepend(tokens, Scan(cat, p, input[i..]))
    {
      var c := input[i];
      var piece: seq<Token>, next: nat;
      if c == '(' {
        piece, next := [OpenToken], i + 1;
      } else if c == ')' {
        piece, next := [CloseToken], i + 1;
      } else if IsDigit(c) {
        var number;
        number, next := ReadNumber(input, i);
        piece := [Token(Number, number)];
      } else if IsLetter(c) {
        var found, symbol, width := ReadTitleSymbol(cat, input, i);
        if !found {
          NoSymbolStops(cat, p, input, i, tokens);
          return false, tokens;
        }
        piece, next := [ElementToken(symbol)], i + width;
      } else if IsWhiteSpace(c) {
        piece, next := [], i + 1;
      } else {
        StopsAt(cat, p, input, i, tokens);
        return false, tokens;
      }
      Consume(cat, p, input, i, next, tokens, piece);
      tokens, i := tokens + piece, next;
    }
    Finish(cat, p, input, tokens);
    SmartScanTokensKnown(cat, p, input);
    ok := ValidateTokens(cat, tokens);
  }

  // ---------------------------------------------------------------------------
  // The ladder.

  /** SmartFormulaParser.ParseFormula, without the floating-point mass. */
  method ParseFormula(cat: Catalog, input: string) returns (result: SmartResult)
    ensures result == SmartParse(cat, input)
  {
    var exactOk, exactTokens := TryExactMatch(cat, input);
    if exactOk {
      var counts := CalculateMolarMass(cat, exactTokens);
      return Parsed(ExactMatchLabel, counts);
    }
    var sectionOk, sectionTokens := TrySectionBasedParsing(cat, input);
    if sectionOk {
      var counts := CalculateMolarMass(cat, sectionTokens);
      return Parsed(SectionLabel, counts);
    }
    var combinationOk, combinationTokens := TryAllCombinations(cat, input);
    if combinationOk {
      var counts := CalculateMolarMass(cat, combinationTokens);
      return Parsed(FallbackLabel, counts);
    }
    return NotParsed(NoMethodError);
  }
}
