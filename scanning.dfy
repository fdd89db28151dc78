/**
  The scanning discipline shared by every tokenizer in the application
  (`FormulaTokenizer.Tokenize` and the three strategies of `SmartFormulaParser`):
  parentheses become one token each, a maximal run of digits becomes one Number
  token, whitespace is skipped, any other non-letter fails, and a letter starts
  an element symbol whose resolution is what tells the tokenizers apart. A
  `LetterPolicy` names each tokenizer's way of resolving letters.
*/
module Scanning {
  import opened Ascii
  import opened Outcomes
  import opened ChemicalElements
  import opened Tokens

  datatype LetterPolicy =
    | ExactCase      // SmartFormulaParser.TryExactMatch: verbatim two letters, else verbatim one letter
    | SectionBest    // SmartFormulaParser.TrySectionBasedParsing: whole letter run via ParseSection
    | TitleGreedy    // SmartFormulaParser.TryAllCombinations: Titlecase two letters, else upper-case one letter
    | AllLowerMode   // FormulaTokenizer.Tokenize when the formula has no upper-case letter
    | MixedCaseMode  // FormulaTokenizer.Tokenize otherwise

  datatype ScanError =
    | InvalidCharacter(c: char)  // not a letter, digit, parenthesis or whitespace
    | NoSymbolAt(c: char)        // a letter the policy could not resolve

  /** The tokens a letter step emits and how many characters it consumes. */
  datatype Step = Step(tokens: seq<Token>, width: nat)

  /** The upper-case one-letter symbol for `c`. */
  function Upper1(c: char): string { [ToUpper(c)] }

  /** The Titlecase two-letter symbol for `a`, `b`. */
  function Title(a: char, b: char): string { [ToUpper(a), ToLower(b)] }

  /** Length of the maximal run of digits at the start of `s`. */
  function DigitRunLength(s: string): (n: nat)
    ensures n <= |s|
    ensures forall j | 0 <= j < n :: IsDigit(s[j])
    ensures n == |s| || !IsDigit(s[n])
    decreases |s|
  {
    if s != [] && IsDigit(s[0]) then 1 + DigitRunLength(s[1..]) else 0
  }

  /** Length of the maximal run of letters at the start of `s`. */
  function LetterRunLength(s: string): (n: nat)
    ensures n <= |s|
    ensures forall j | 0 <= j < n :: IsLetter(s[j])
    ensures n == |s| || !IsLetter(s[n])
    decreases |s|
  {
    if s != [] && IsLetter(s[0]) then 1 + LetterRunLength(s[1..]) else 0
  }

  /** What an Element token emitted under policy `p` looks like. */
  predicate PolicyToken(cat: Catalog, p: LetterPolicy, t: Token) {
    var v := t.value;
    && t.kind.Element?
    && match p
       case ExactCase => v in cat.elements
       case SectionBest => v in cat.elements
       case TitleGreedy =>
         && v in cat.elements
         && ((|v| == 1 && IsUpper(v[0])) || (|v| == 2 && IsUpper(v[0]) && IsLower(v[1])))
       case AllLowerMode =>
         || (|v| == 1 && IsUpper(v[0]))
         || (&& |v| == 2 && v in cat.elements && IsUpper(v[0]) && IsLetter(v[1])
             && ([v[0]] !in cat.elements || [ToUpper(v[1])] !in cat.elements))
       case MixedCaseMode =>
         || (|v| == 1 && IsUpper(v[0]))
         || (|v| == 2 && v in cat.elements && IsUpper(v[0]) && IsLower(v[1]))
  }

  predicate AllPolicyTokens(cat: Catalog, p: LetterPolicy, ts: seq<Token>) {
    forall k | 0 <= k < |ts| :: PolicyToken(cat, p, ts[k])
  }

  /** The tokens cover `s` exactly, up to case, and all name catalog keys. */
  predicate CoversSection(cat: Catalog, ts: seq<Token>, s: string) {
    && AllPolicyTokens(cat, SectionBest, ts)
    && Fold(ElementText(ts)) == Fold(s)
  }

  function Cons(t: Token, r: Option<seq<Token>>): Option<seq<Token>> {
    if r.Some? then Some([t] + r.value) else None
  }

  // ---------------------------------------------------------------------------
  // The three sub-strategies of ParseSection, on one run of letters.

  /** TryParseSectionExact: the whole section is itself a catalog key. */
  function SectionExact(cat: Catalog, section: string): (r: Option<seq<Token>>)
    ensures r.Some? ==> CoversSection(cat, r.value, section)
    ensures r.Some? <==> section in cat.elements
    ensures r.Some? ==> |r.value| == 1
  {
    if section in cat.elements then
      assert [ElementToken(section)][1..] == [];
      assert ElementText([ElementToken(section)]) == section + [] == section;
      Some([ElementToken(section)])
    else None
  }

  /** TryParseSectionTwoLetterFirst: verbatim pair, then Titlecase pair, then upper-case single letter. */
  function TwoLetterFirst(cat: Catalog, s: string): (r: Option<seq<Token>>)
    ensures r.Some? ==> CoversSection(cat, r.value, s)
    ensures r.Some? && |s| >= 2 && (s[..2] in cat.elements || Title(s[0], s[1]) in cat.elements) ==>
              r.value != [] && |r.value[0].value| == 2
    decreases |s|
  {
    if s == [] then Some([])
    else if |s| >= 2 && s[..2] in cat.elements then
      ConsCovers(cat, s, 2, s[..2], TwoLetterFirst(cat, s[2..]));
      Cons(ElementToken(s[..2]), TwoLetterFirst(cat, s[2..]))
    else if |s| >= 2 && Title(s[0], s[1]) in cat.elements then
      FoldTitle(s);
      ConsCovers(cat, s, 2, Title(s[0], s[1]), TwoLetterFirst(cat, s[2..]));
      Cons(ElementToken(Title(s[0], s[1])), TwoLetterFirst(cat, s[2..]))
    else if Upper1(s[0]) in cat.elements then
      FoldUpper1(s);
      ConsCovers(cat, s, 1, Upper1(s[0]), TwoLetterFirst(cat, s[1..]));
      Cons(ElementToken(Upper1(s[0])), TwoLetterFirst(cat, s[1..]))
    else None
  }

  /** TryParseSectionSingleLetterFirst: upper-case single letter, then verbatim pair, then Titlecase pair. */
  function SingleLetterFirst(cat: Catalog, s: string): (r: Option<seq<Token>>)
    ensures r.Some? ==> CoversSection(cat, r.value, s)
    ensures r.Some? && s != [] && Upper1(s[0]) in cat.elements ==>
              r.value != [] && r.value[0] == ElementToken(Upper1(s[0]))
    decreases |s|
  {
    if s == [] then Some([])
    else if Upper1(s[0]) in cat.elements then
      FoldUpper1(s);
      ConsCovers(cat, s, 1, Upper1(s[0]), SingleLetterFirst(cat, s[1..]));
      Cons(ElementToken(Upper1(s[0])), SingleLetterFirst(cat, s[1..]))
    else if |s| >= 2 && s[..2] in cat.elements then
      ConsCovers(cat, s, 2, s[..2], SingleLetterFirst(cat, s[2..]));
      Cons(ElementToken(s[..2]), SingleLetterFirst(cat, s[2..]))
    else if |s| >= 2 && Title(s[0], s[1]) in cat.elements then
      FoldTitle(s);
      ConsCovers(cat, s, 2, Title(s[0], s[1]), SingleLetterFirst(cat, s[2..]));
      Cons(ElementToken(Title(s[0], s[1])), SingleLetterFirst(cat, s[2..]))
    else None
  }

  /** The Titlecase pair folds like the two letters it was made from. */
  lemma FoldTitle(s: string)
    requires |s| >= 2
    ensures Fold(Title(s[0], s[1])) == Fold(s[..2])
  {
    UpperOfLower(s[1]);
    var t := Title(s[0], s[1]);
    assert t[1..] == [t[1]] && [t[1]][1..] == [];
    var p := s[..2];
    assert p[1..] == [p[1]] && [p[1]][1..] == [];
  }

  /** The upper-case letter folds like the letter. */
  lemma FoldUpper1(s: string)
    requires |s| >= 1
    ensures Fold(Upper1(s[0])) == Fold(s[..1])
  {
    assert Upper1(s[0])[1..] == [] && s[..1][1..] == [];
  }

  /** A catalog symbol that folds like the first `w` letters, before a cover of the rest, covers the whole run. */
  lemma ConsCovers(cat: Catalog, s: string, w: nat, v: string, rest: Option<seq<Token>>)
    requires 1 <= w <= |s| && v in cat.elements && Fold(v) == Fold(s[..w])
    requires rest.Some? ==> CoversSection(cat, rest.value, s[w..])
    ensures Cons(ElementToken(v), rest).Some? ==> CoversSection(cat, Cons(ElementToken(v), rest).value, s)
  {
    if rest.Some? {
      var ts := [ElementToken(v)] + rest.value;
      assert ts[0] == ElementToken(v) && ts[1..] == rest.value;
      assert ElementText(ts) == v + ElementText(rest.value);
      FoldAppend(v, ElementText(rest.value));
      FoldAppend(s[..w], s[w..]);
      assert s == s[..w] + s[w..];
      forall k | 0 <= k < |ts| ensures PolicyToken(cat, SectionBest, ts[k]) {
        if k > 0 {
          assert ts[k] == rest.value[k - 1];
        }
      }
    }
  }

  /** The successful sub-strategies, in the order ParseSection tries them. */
  function Candidates(cat: Catalog, section: string): (cs: seq<seq<Token>>)
    ensures forall j | 0 <= j < |cs| :: CoversSection(cat, cs[j], section)
    ensures cs == [] <==>
              SectionExact(cat, section).None? && TwoLetterFirst(cat, section).None?
              && SingleLetterFirst(cat, section).None?
  {
    var e, t, s := SectionExact(cat, section), TwoLetterFirst(cat, section), SingleLetterFirst(cat, section);
    (if e.Some? then [e.value] else []) + (if t.Some? then [t.value] else []) + (if s.Some? then [s.value] else [])
  }

  /** `s.Count == 1 && s[0].Value == section` */
  predicate IsWholeSection(c: seq<Token>, section: string) {
    |c| == 1 && c[0].value == section
  }

  /** `s.Count > 1 && s.Any(t => t.Value.Length == 1)` */
  predicate HasSingleLetter(c: seq<Token>) {
    |c| > 1 && exists k | 0 <= k < |c| :: |c[k].value| == 1
  }

  /** Index of the first whole-section candidate, or |cs| if there is none. */
  function FirstWhole(cs: seq<seq<Token>>, section: string): (r: nat)
    ensures r <= |cs|
    ensures forall j | 0 <= j < r :: !IsWholeSection(cs[j], section)
    ensures r < |cs| ==> IsWholeSection(cs[r], section)
    decreases |cs|
  {
    if cs == [] then 0
    else if IsWholeSection(cs[0], section) then 0
    else 1 + FirstWhole(cs[1..], section)
  }

  /** Index of the first candidate with several tokens, one of them a single letter, or |cs|. */
  function FirstWithSingle(cs: seq<seq<Token>>): (r: nat)
    ensures r <= |cs|
    ensures forall j | 0 <= j < r :: !HasSingleLetter(cs[j])
    ensures r < |cs| ==> HasSingleLetter(cs[r])
    decreases |cs|
  {
    if cs == [] then 0
    else if HasSingleLetter(cs[0]) then 0
    else 1 + FirstWithSingle(cs[1..])
  }

  /**
    ParseSection's choice among the candidates. The source applies the two
    preferences only when there is more than one candidate; the contract shows
    that the rule reads the same without that guard.
  */
  function Choose(cs: seq<seq<Token>>, section: string): (r: seq<Token>)
    requires cs != []
    ensures r in cs
    ensures forall j | 0 <= j < |cs| && IsWholeSection(cs[j], section) &&
                       (forall k | 0 <= k < j :: !IsWholeSection(cs[k], section)) :: r == cs[j]
    ensures (forall j | 0 <= j < |cs| :: !IsWholeSection(cs[j], section)) ==>
              forall j | 0 <= j < |cs| && HasSingleLetter(cs[j]) &&
                         (forall k | 0 <= k < j :: !HasSingleLetter(cs[k])) :: r == cs[j]
    ensures (forall j | 0 <= j < |cs| :: !IsWholeSection(cs[j], section) && !HasSingleLetter(cs[j])) ==>
              r == cs[0]
  {
    var whole := FirstWhole(cs, section);
    var single := FirstWithSingle(cs);
    if |cs| > 1 && whole < |cs| then cs[whole]
    else if |cs| > 1 && single < |cs| then cs[single]
    else cs[0]
  }

  // ---------------------------------------------------------------------------
  // Letter steps of every policy, on the rest of the input starting at a letter.

  /**
    A letter step of policy `p` at the start of `s`: it consumes a non-empty
    run of letters and emits Element tokens of that policy that spell exactly
    those letters up to case.
  */
  predicate GoodStep(cat: Catalog, p: LetterPolicy, s: string, step: Step) {
    && 1 <= step.width <= |s|
    && AllLetters(s[..step.width])
    && Fold(ElementText(step.tokens)) == Fold(s[..step.width])
    && AllPolicyTokens(cat, p, step.tokens)
  }

  /** One symbol that folds like the letters it consumes is a good step. */
  lemma OneSymbolStep(cat: Catalog, p: LetterPolicy, s: string, v: string, w: nat)
    requires 1 <= w <= |s| && AllLetters(s[..w])
    requires Fold(v) == Fold(s[..w]) && PolicyToken(cat, p, ElementToken(v))
    ensures GoodStep(cat, p, s, Step([ElementToken(v)], w))
  {
    var ts := [ElementToken(v)];
    assert ts[0] == ElementToken(v) && ts[1..] == [];
    assert ElementText(ts) == v + [] == v;
    assert forall k | 0 <= k < |ts| :: ts[k] == ElementToken(v);
  }

  function ExactStep(cat: Catalog, s: string): (r: Option<Step>)
    requires s != [] && IsLetter(s[0])
    ensures r.Some? ==> GoodStep(cat, ExactCase, s, r.value)
    ensures r.Some? ==> r.value.width <= 2 && r.value.tokens == [ElementToken(s[..r.value.width])]
  {
    if |s| >= 2 && IsLetter(s[1]) && s[..2] in cat.elements then
      OneSymbolStep(cat, ExactCase, s, s[..2], 2);
      Some(Step([ElementToken(s[..2])], 2))
    else if [s[0]] in cat.elements then
      assert s[..1] == [s[0]];
      OneSymbolStep(cat, ExactCase, s, [s[0]], 1);
      Some(Step([ElementToken([s[0]])], 1))
    else None
  }

  function SectionStep(cat: Catalog, s: string): (r: Option<Step>)
    requires s != [] && IsLetter(s[0])
    ensures r.Some? ==> GoodStep(cat, SectionBest, s, r.value)
    ensures r.Some? ==> r.value.width == LetterRunLength(s)
    ensures r.None? <==> Candidates(cat, s[..LetterRunLength(s)]) == []
  {
    var n := LetterRunLength(s);
    var cs := Candidates(cat, s[..n]);
    if cs == [] then None else Some(Step(Choose(cs, s[..n]), n))
  }

  function TitleStep(cat: Catalog, s: string): (r: Option<Step>)
    requires s != [] && IsLetter(s[0])
    ensures r.Some? ==> GoodStep(cat, TitleGreedy, s, r.value)
    ensures r.Some? ==> r.value.width <= 2 && |r.value.tokens| == 1
  {
    if |s| >= 2 && IsLetter(s[1]) && Title(s[0], s[1]) in cat.elements then
      FoldTitle(s);
      OneSymbolStep(cat, TitleGreedy, s, Title(s[0], s[1]), 2);
      Some(Step([ElementToken(Title(s[0], s[1]))], 2))
    else if Upper1(s[0]) in cat.elements then
      FoldUpper1(s);
      OneSymbolStep(cat, TitleGreedy, s, Upper1(s[0]), 1);
      Some(Step([ElementToken(Upper1(s[0]))], 1))
    else None
  }

  function AllLowerStep(cat: Catalog, s: string): (r: Step)
    requires s != [] && IsLetter(s[0])
    ensures GoodStep(cat, AllLowerMode, s, r)
    ensures r.width <= 2 && |r.tokens| == 1
    ensures r.width == 2 <==>
              (&& |s| >= 2 && IsLetter(s[1])
               && (Upper1(s[0]) !in cat.elements || Upper1(s[1]) !in cat.elements)
               && [ToUpper(s[0]), s[1]] in cat.elements)
    ensures r.tokens == [ElementToken(if r.width == 2 then [ToUpper(s[0]), s[1]] else Upper1(s[0]))]
  {
    if |s| >= 2 && IsLetter(s[1]) &&
       (Upper1(s[0]) !in cat.elements || Upper1(s[1]) !in cat.elements) &&
       [ToUpper(s[0]), s[1]] in cat.elements
    then
      PairStep(cat, AllLowerMode, s);
      Step([ElementToken([ToUpper(s[0]), s[1]])], 2)
    else
      FoldUpper1(s);
      OneSymbolStep(cat, AllLowerMode, s, Upper1(s[0]), 1);
      Step([ElementToken(Upper1(s[0]))], 1)
  }

  function MixedCaseStep(cat: Catalog, s: string): (r: Step)
    requires s != [] && IsLetter(s[0])
    ensures GoodStep(cat, MixedCaseMode, s, r)
    ensures r.width <= 2 && |r.tokens| == 1
    ensures r.width == 2 <==> (|s| >= 2 && IsLetter(s[1]) && IsLower(s[1]) && [ToUpper(s[0]), s[1]] in cat.elements)
    ensures r.tokens == [ElementToken(if r.width == 2 then [ToUpper(s[0]), s[1]] else Upper1(s[0]))]
  {
    if |s| >= 2 && IsLetter(s[1]) && IsLower(s[1]) && [ToUpper(s[0]), s[1]] in cat.elements
    then
      PairStep(cat, MixedCaseMode, s);
      Step([ElementToken([ToUpper(s[0]), s[1]])], 2)
    else
      FoldUpper1(s);
      OneSymbolStep(cat, MixedCaseMode, s, Upper1(s[0]), 1);
      Step([ElementToken(Upper1(s[0]))], 1)
  }

  /** The pair "upper-cased first letter, second letter verbatim" of the FormulaTokenizer policies. */
  lemma PairStep(cat: Catalog, p: LetterPolicy, s: string)
    requires |s| >= 2 && IsLetter(s[0]) && IsLetter(s[1])
    requires PolicyToken(cat, p, ElementToken([ToUpper(s[0]), s[1]]))
    ensures GoodStep(cat, p, s, Step([ElementToken([ToUpper(s[0]), s[1]])], 2))
  {
    var v := [ToUpper(s[0]), s[1]];
    assert v[1..] == [s[1]] && [s[1]][1..] == [];
    var q := s[..2];
    assert q[1..] == [q[1]] && [q[1]][1..] == [];
    assert Fold(v) == Fold(q);
    OneSymbolStep(cat, p, s, v, 2);
  }

  /**
    How policy `p` resolves the letters at the start of `s`: it consumes a
    non-empty run of letters and emits Element tokens that spell exactly those
    letters up to case. The FormulaTokenizer policies never fail on a letter.
  */
  function LetterStep(cat: Catalog, p: LetterPolicy, s: string): (r: Option<Step>)
    requires s != [] && IsLetter(s[0])
    ensures r.Some? ==> GoodStep(cat, p, s, r.value)
    ensures (p.AllLowerMode? || p.MixedCaseMode?) ==> r.Some?
  {
    match p
    case ExactCase => ExactStep(cat, s)
    case SectionBest => SectionStep(cat, s)
    case TitleGreedy => TitleStep(cat, s)
    case AllLowerMode => Some(AllLowerStep(cat, s))
    case MixedCaseMode => Some(MixedCaseStep(cat, s))
  }

  // ---------------------------------------------------------------------------
  // The scanner.

  function Prepend(pre: seq<Token>, r: Result<seq<Token>, ScanError>): Result<seq<Token>, ScanError> {
    if r.Ok? then Ok(pre + r.value) else r
  }

  lemma PrependPrepend(a: seq<Token>, b: seq<Token>, r: Result<seq<Token>, ScanError>)
    ensures Prepend(a, Prepend(b, r)) == Prepend(a + b, r)
  {
    if r.Ok? {
      assert a + (b + r.value) == (a + b) + r.value;
    }
  }

  /** The tokens of `s` under policy `p`, or the reason scanning stops. */
  function Scan(cat: Catalog, p: LetterPolicy, s: string): Result<seq<Token>, ScanError>
    decreases |s|
  {
    if s == [] then Ok([])
    else if s[0] == '(' then Prepend([OpenToken], Scan(cat, p, s[1..]))
    else if s[0] == ')' then Prepend([CloseToken], Scan(cat, p, s[1..]))
    else if IsDigit(s[0]) then
      var n := DigitRunLength(s);
      Prepend([Token(Number, s[..n])], Scan(cat, p, s[n..]))
    else if IsLetter(s[0]) then
      match LetterStep(cat, p, s)
      case None => Err(NoSymbolAt(s[0]))
      case Some(step) => Prepend(step.tokens, Scan(cat, p, s[step.width..]))
    else if IsWhiteSpace(s[0]) then Scan(cat, p, s[1..])
    else Err(InvalidCharacter(s[0]))
  }

  /**
    A scan stops only at a character of its input: one that no rule accepts,
    or a letter the policy could not resolve.
  */
  lemma {:induction false} ScanErrorAt(cat: Catalog, p: LetterPolicy, s: string)
    ensures Scan(cat, p, s).Err? && Scan(cat, p, s).error.InvalidCharacter? ==>
              Scan(cat, p, s).error.c in s && IsForeign(Scan(cat, p, s).error.c)
    ensures Scan(cat, p, s).Err? && Scan(cat, p, s).error.NoSymbolAt? ==>
              Scan(cat, p, s).error.c in s && IsLetter(Scan(cat, p, s).error.c)
    decreases |s|
  {
    if s == [] || !Scan(cat, p, s).Err? {
    } else if s[0] == '(' || s[0] == ')' || IsWhiteSpace(s[0]) {
      ScanErrorAt(cat, p, s[1..]);
      SuffixMembers(s, 1);
    } else if IsDigit(s[0]) {
      ScanErrorAt(cat, p, s[DigitRunLength(s)..]);
      SuffixMembers(s, DigitRunLength(s));
    } else if IsLetter(s[0]) && LetterStep(cat, p, s).Some? {
      var w := LetterStep(cat, p, s).value.width;
      ScanErrorAt(cat, p, s[w..]);
      SuffixMembers(s, w);
    }
  }

  lemma SuffixMembers(s: string, n: nat)
    requires n <= |s|
    ensures forall c | c in s[n..] :: c in s
  {
    forall c | c in s[n..] ensures c in s {
      var k :| 0 <= k < |s[n..]| && s[n..][k] == c;
      assert s[n + k] == c;
    }
  }
}
