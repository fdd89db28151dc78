/**
  Worked formulas: the counts of water and of calcium hydroxide, the
  messages for an unmatched parenthesis, and the section reading of "co",
  derived from the general lemmas of the evaluator, the validator and the
  section strategy.
*/
module WorkedExamples {
  import opened Outcomes
  import opened ChemicalElements
  import opened Tokens
  import opened GroupEvaluation
  import opened FormulaValidation
  import opened Ascii
  import opened Scanning

  /** Counts over different symbols add up to their union. */
  lemma PlusDisjoint(a: Counts, b: Counts)
    requires a.Keys !! b.Keys
    ensures Plus(a, b) == a + b
  {
    forall k ensures Get(Plus(a, b), k) == Get(a + b, k) {
      if k in a {
        assert k !in b;
      }
    }
    CountsExt(Plus(a, b), a + b);
  }

  /** An element followed by the number 2 counts two atoms of it. */
  lemma TwoOf(x: string)
    ensures Balanced([ElementToken(x), Token(Number, "2")])
    ensures Eval([ElementToken(x), Token(Number, "2")]) == map[x := 2]
  {
    assert DigitsValue("2") == 2 by {
      assert "2"[..0] == "";
    }
    EvalElement(x, [Token(Number, "2")]);
  }

  /** H2O: two hydrogen atoms and one oxygen atom. */
  lemma Water()
    ensures Balanced([ElementToken("H"), Token(Number, "2"), ElementToken("O")])
    ensures Eval([ElementToken("H"), Token(Number, "2"), ElementToken("O")]) == map["H" := 2, "O" := 1]
  {
    var h, o := [ElementToken("H"), Token(Number, "2")], [ElementToken("O")];
    TwoOf("H");
    EvalElement("O", []);
    assert o == [ElementToken("O")] + [];
    EvalConcat(h, o);
    assert h + o == [ElementToken("H"), Token(Number, "2"), ElementToken("O")];
    PlusDisjoint(map["H" := 2], map["O" := 1]);
  }

  /** O2H2: two oxygen and two hydrogen atoms. */
  lemma SpreadHydroxide()
    ensures Balanced([ElementToken("O"), Token(Number, "2"), ElementToken("H"), Token(Number, "2")])
    ensures Eval([ElementToken("O"), Token(Number, "2"), ElementToken("H"), Token(Number, "2")])
         == map["O" := 2, "H" := 2]
  {
    var o, h := [ElementToken("O"), Token(Number, "2")], [ElementToken("H"), Token(Number, "2")];
    TwoOf("O");
    TwoOf("H");
    EvalConcat(o, h);
    assert o + h == [ElementToken("O"), Token(Number, "2"), ElementToken("H"), Token(Number, "2")];
    PlusDisjoint(map["O" := 2], map["H" := 2]);
  }

  /** (OH)2: the group's count multiplies both of its elements, as in O2H2. */
  lemma Hydroxide2()
    ensures Balanced([OpenToken, ElementToken("O"), ElementToken("H"), CloseToken, Token(Number, "2")])
    ensures Eval([OpenToken, ElementToken("O"), ElementToken("H"), CloseToken, Token(Number, "2")])
         == map["O" := 2, "H" := 2]
  {
    EvalPairGroup("O", "H", "2");
    SpreadHydroxide();
  }

  /** Ca(OH)2: one calcium, two oxygen and two hydrogen atoms. */
  lemma CalciumHydroxide()
    ensures Balanced([ElementToken("Ca"), OpenToken, ElementToken("O"), ElementToken("H"), CloseToken, Token(Number, "2")])
    ensures Eval([ElementToken("Ca"), OpenToken, ElementToken("O"), ElementToken("H"), CloseToken, Token(Number, "2")])
         == map["Ca" := 1, "O" := 2, "H" := 2]
  {
    var ca := [ElementToken("Ca")];
    var group := [OpenToken, ElementToken("O"), ElementToken("H"), CloseToken, Token(Number, "2")];
    EvalElement("Ca", []);
    assert ca == ca + [];
    Hydroxide2();
    EvalConcat(ca, group);
    assert ca + group == [ElementToken("Ca"), OpenToken, ElementToken("O"), ElementToken("H"), CloseToken, Token(Number, "2")];
    CalciumPlusHydroxide();
  }

  lemma CalciumPlusHydroxide()
    ensures Plus(map["Ca" := 1], map["O" := 2, "H" := 2]) == map["Ca" := 1, "O" := 2, "H" := 2]
  {
    PlusDisjoint(map["Ca" := 1], map["O" := 2, "H" := 2]);
  }

  /** ")" alone is an unmatched closing parenthesis, "(" alone an unmatched opening one. */
  lemma UnmatchedParentheses(cat: Catalog)
    ensures ValidationError(cat, [CloseToken]) == Some(UnmatchedClosing)
    ensures ValidationError(cat, [OpenToken]) == Some(UnmatchedOpening)
  {
    assert [CloseToken][1..] == [] && [OpenToken][1..] == [];
    assert Check(cat, [], 1) == Some(UnmatchedOpening);
  }

  /** A catalog holding carbon, oxygen and cobalt, where "co" can be read two ways. */
  function CarbonOxygenCobalt(): (cat: Catalog)
    ensures cat.elements.Keys == {"C", "O", "Co"}
  {
    var cat := ElementTable(
      map["C" := Element.Element("C", "Carbon", 12.011), "O" := Element.Element("O", "Oxygen", 15.999),
          "Co" := Element.Element("Co", "Cobalt", 58.933)],
      ["C", "O", "Co"]);
    assert cat.WellOrdered();
    cat
  }

  /** The two-letter-first strategy reads "co" as the Titlecase pair Co. */
  lemma CoAsPair()
    ensures TwoLetterFirst(CarbonOxygenCobalt(), "co") == Some([ElementToken("Co")])
  {
    var cat, s := CarbonOxygenCobalt(), "co";
    assert s[..2] == s && s !in cat.elements;
    assert Title(s[0], s[1]) == "Co";
    assert s[2..] == [];
    assert TwoLetterFirst(cat, s[2..]) == Some([]);
    assert TwoLetterFirst(cat, s) == Cons(ElementToken("Co"), Some([]));
    assert [ElementToken("Co")] + [] == [ElementToken("Co")];
  }

  /** The single-letter-first strategy reads "co" letter by letter as C and O. */
  lemma CoAsLetters()
    ensures SingleLetterFirst(CarbonOxygenCobalt(), "co") == Some([ElementToken("C"), ElementToken("O")])
  {
    var cat, s := CarbonOxygenCobalt(), "co";
    assert Upper1(s[0]) == "C";
    var o := s[1..];
    assert o == "o" && Upper1(o[0]) == "O" && o[1..] == [];
    assert SingleLetterFirst(cat, o[1..]) == Some([]);
    assert SingleLetterFirst(cat, o) == Cons(ElementToken("O"), Some([]));
    assert [ElementToken("O")] + [] == [ElementToken("O")];
    assert SingleLetterFirst(cat, s) == Cons(ElementToken("C"), Some([ElementToken("O")]));
    assert [ElementToken("C")] + [ElementToken("O")] == [ElementToken("C"), ElementToken("O")];
  }

  /**
    The section "co" has the candidates Co (by the Titlecase pair) and C O
    (letter by letter); neither is the section verbatim, so the candidate
    with a single-letter symbol wins and "co" reads as carbon and oxygen.
  */
  lemma CarbonMonoxideSection()
    ensures SectionStep(CarbonOxygenCobalt(), "co")
         == Some(Step([ElementToken("C"), ElementToken("O")], 2))
  {
    var cat, s := CarbonOxygenCobalt(), "co";
    assert LetterRunLength(s) == 2 by {
      assert IsLetter(s[0]) && IsLetter(s[1]) && s[1..][1..] == [];
    }
    assert s[..2] == s && s !in cat.elements;
    CoAsPair();
    CoAsLetters();
    assert Candidates(cat, s) == [[ElementToken("Co")], [ElementToken("C"), ElementToken("O")]];
    CoChoice();
  }

  /** Of the two readings, the one with a single-letter symbol is chosen. */
  lemma CoChoice()
    ensures Choose([[ElementToken("Co")], [ElementToken("C"), ElementToken("O")]], "co")
         == [ElementToken("C"), ElementToken("O")]
  {
    var cs := [[ElementToken("Co")], [ElementToken("C"), ElementToken("O")]];
    assert !IsWholeSection(cs[0], "co") && !IsWholeSection(cs[1], "co");
    assert |cs[1][0].value| == 1;
    assert !HasSingleLetter(cs[0]) && HasSingleLetter(cs[1]);
  }
}
