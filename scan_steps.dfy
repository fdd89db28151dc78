/**
  The pieces every tokenizer loop in the application is built from: the
  character at the loop index decides a piece (a parenthesis, a digit run,
  skipped whitespace or a letter step), and consuming it keeps the loop's
  account `Scan(whole) == Prepend(tokens, Scan(rest))`.
*/
module ScanSteps {
  import opened Ascii
  import opened Outcomes
  import opened ChemicalElements
  import opened Tokens
  import opened Scanning
  import opened ScanProperties

  /** `piece` and `next` are what the scan makes of the characters of `formula` from `i`. */
  ghost predicate PieceAt(cat: Catalog, p: LetterPolicy, formula: string, i: nat, piece: seq<Token>, next: nat) {
    && i < next <= |formula|
    && var c := formula[i];
    || (c == '(' && piece == [OpenToken] && next == i + 1)
    || (c == ')' && piece == [CloseToken] && next == i + 1)
    || (IsWhiteSpace(c) && piece == [] && next == i + 1)
    || (&& IsDigit(c) && piece == [Token(Number, formula[i..next])]
        && (forall k | i <= k < next :: IsDigit(formula[k]))
        && (next == |formula| || !IsDigit(formula[next])))
    || (IsLetter(c) && LetterStep(cat, p, formula[i..]) == Some(Step(piece, next - i)))
  }

  lemma ScanPiece(cat: Catalog, p: LetterPolicy, formula: string, i: nat, piece: seq<Token>, next: nat)
    requires PieceAt(cat, p, formula, i, piece, next)
    ensures Scan(cat, p, formula[i..]) == Prepend(piece, Scan(cat, p, formula[next..]))
  {
    var s, c := formula[i..], formula[i];
    assert s[0] == c;
    assert s[next - i..] == formula[next..];
    if IsDigit(c) {
      DigitPiece(cat, p, formula, i, next);
    } else if IsLetter(c) {
      LetterPiece(cat, p, s, Step(piece, next - i));
    } else {
      OneCharPiece(cat, p, s);
    }
  }

  /** A maximal digit run from `i` is one Number token. */
  lemma DigitPiece(cat: Catalog, p: LetterPolicy, formula: string, i: nat, next: nat)
    requires i < next <= |formula|
    requires forall k | i <= k < next :: IsDigit(formula[k])
    requires next == |formula| || !IsDigit(formula[next])
    ensures Scan(cat, p, formula[i..]) == Prepend([Token(Number, formula[i..next])], Scan(cat, p, formula[next..]))
  {
    var d := formula[i..next];
    assert formula[i..] == d + formula[next..];
    assert formula[next..] != [] ==> formula[next..][0] == formula[next];
    ScanDigitRun(cat, p, d, formula[next..]);
  }

  /** A resolved letter step is the scan's next piece. */
  lemma LetterPiece(cat: Catalog, p: LetterPolicy, s: string, step: Step)
    requires s != [] && IsLetter(s[0]) && LetterStep(cat, p, s) == Some(step)
    ensures Scan(cat, p, s) == Prepend(step.tokens, Scan(cat, p, s[step.width..]))
  {
    assert s[0] != '(' && s[0] != ')' && !IsDigit(s[0]);
  }

  /** A parenthesis is its own token; whitespace gives none. */
  lemma OneCharPiece(cat: Catalog, p: LetterPolicy, s: string)
    requires s != [] && (s[0] == '(' || s[0] == ')' || IsWhiteSpace(s[0]))
    ensures s[0] == '(' ==> Scan(cat, p, s) == Prepend([OpenToken], Scan(cat, p, s[1..]))
    ensures s[0] == ')' ==> Scan(cat, p, s) == Prepend([CloseToken], Scan(cat, p, s[1..]))
    ensures IsWhiteSpace(s[0]) ==> Scan(cat, p, s) == Prepend([], Scan(cat, p, s[1..]))
  {
    var rest := Scan(cat, p, s[1..]);
    assert rest.Ok? ==> [] + rest.value == rest.value;
  }

  /** Consuming one piece keeps the loop's account of the whole scan. */
  lemma Consume(cat: Catalog, p: LetterPolicy, formula: string, i: nat, next: nat,
                tokens: seq<Token>, piece: seq<Token>)
    requires PieceAt(cat, p, formula, i, piece, next)
    requires Scan(cat, p, formula) == Prepend(tokens, Scan(cat, p, formula[i..]))
    ensures Scan(cat, p, formula) == Prepend(tokens + piece, Scan(cat, p, formula[next..]))
  {
    var s, rest := formula[i..], Scan(cat, p, formula[next..]);
    ScanPiece(cat, p, formula, i, piece, next);
    PrependPrepend(tokens, piece, rest);
  }

  /** The scan stops with an error at a foreign character. */
  lemma StopsAt(cat: Catalog, p: LetterPolicy, formula: string, i: nat, tokens: seq<Token>)
    requires i < |formula| && IsForeign(formula[i])
    requires Scan(cat, p, formula) == Prepend(tokens, Scan(cat, p, formula[i..]))
    ensures Scan(cat, p, formula) == Err(InvalidCharacter(formula[i]))
  {
    assert formula[i..][0] == formula[i];
  }

  /** The digit branch of every tokenizer loop: the maximal run of digits from `i`, and the position after it. */
  method ReadNumber(formula: string, i: nat) returns (number: string, next: nat)
    requires i < |formula| && IsDigit(formula[i])
    ensures i < next <= |formula|
    ensures number == formula[i..next]
    ensures forall k | i <= k < next :: IsDigit(formula[k])
    ensures next == |formula| || !IsDigit(formula[next])
  {
    number := [formula[i]];
    next := i + 1;
    while next < |formula| && IsDigit(formula[next])
      invariant i < next <= |formula|
      invariant number == formula[i..next]
      invariant forall k | i <= k < next :: IsDigit(formula[k])
    {
      number := number + [formula[next]];
      next := next + 1;
    }
  }

  /** A letter the policy cannot resolve stops the scan. */
  lemma NoSymbolStops(cat: Catalog, p: LetterPolicy, formula: string, i: nat, tokens: seq<Token>)
    requires i < |formula| && IsLetter(formula[i]) && LetterStep(cat, p, formula[i..]).None?
    requires Scan(cat, p, formula) == Prepend(tokens, Scan(cat, p, formula[i..]))
    ensures Scan(cat, p, formula) == Err(NoSymbolAt(formula[i]))
  {
    assert formula[i..][0] == formula[i];
  }

  /** The loop's account before the first character. */
  lemma Start(cat: Catalog, p: LetterPolicy, formula: string)
    ensures Scan(cat, p, formula) == Prepend([], Scan(cat, p, formula[0..]))
  {
    assert formula[0..] == formula;
    var r := Scan(cat, p, formula);
    assert r.Ok? ==> [] + r.value == r.value;
  }

  /** The loop's account once the index reaches the end. */
  lemma Finish(cat: Catalog, p: LetterPolicy, formula: string, tokens: seq<Token>)
    requires Scan(cat, p, formula) == Prepend(tokens, Scan(cat, p, formula[|formula|..]))
    ensures Scan(cat, p, formula) == Ok(tokens)
  {
    assert formula[|formula|..] == [];
    assert tokens + [] == tokens;
  }

  lemma {:induction false} LetterRunOf(d: string, rest: string)
    requires AllLetters(d)
    requires rest == [] || !IsLetter(rest[0])
    ensures LetterRunLength(d + rest) == |d|
    decreases |d|
  {
    if d != [] {
      assert (d + rest)[1..] == d[1..] + rest;
      LetterRunOf(d[1..], rest);
    } else {
      assert d + rest == rest;
    }
  }

  /** The run of letters ParseSection measures from `i` is the scan's section. */
  lemma SectionAt(formula: string, i: nat, end: nat)
    requires i < end <= |formula|
    requires forall k | i <= k < end :: IsLetter(formula[k])
    requires end == |formula| || !IsLetter(formula[end])
    ensures LetterRunLength(formula[i..]) == end - i
    ensures formula[i..][..end - i] == formula[i..end]
  {
    assert formula[i..] == formula[i..end] + formula[end..];
    assert formula[end..] != [] ==> formula[end..][0] == formula[end];
    LetterRunOf(formula[i..end], formula[end..]);
  }
}
